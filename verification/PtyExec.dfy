/** How a child comes to run or does not: what is refused before the fork, the calls the child
    makes up to `execvp` with the environment they build, and the errno pipe over which it
    reports a failure (src/pty_exec.rs); and the environment the client asks for
    (src/client.rs). */
module PtyExec {
  import opened Bytes

  // ---------- the errno pipe ----------

  /** An i32. */
  newtype errno = x: int | -0x8000_0000 <= x < 0x8000_0000

  function Unsigned(e: errno): (u: int)
    ensures 0 <= u < 0x1_0000_0000
  {
    if e < 0 then e as int + 0x1_0000_0000 else e as int
  }

  /** `to_le_bytes`. */
  function LittleEndian(e: errno): bytes {
    var u := Unsigned(e);
    [(u % 0x100) as byte, (u / 0x100 % 0x100) as byte, (u / 0x1_0000 % 0x100) as byte, (u / 0x100_0000) as byte]
  }

  /** `from_le_bytes`. */
  function FromLittleEndian(b: bytes): errno
    requires |b| == 4
  {
    var u := b[0] as int + 0x100 * b[1] as int + 0x1_0000 * b[2] as int + 0x100_0000 * b[3] as int;
    if u >= 0x8000_0000 then (u - 0x1_0000_0000) as errno else u as errno
  }

  lemma LittleEndianRoundTrip(e: errno)
    ensures FromLittleEndian(LittleEndian(e)) == e
    ensures var b := LittleEndian(e);
            && |b| == 4
            && b[0] as int + 0x100 * b[1] as int + 0x1_0000 * b[2] as int + 0x100_0000 * b[3] as int
               == if e < 0 then e as int + 0x1_0000_0000 else e as int
  {
    var u := Unsigned(e);
    var v := u / 0x100;
    var w := v / 0x100;
    assert u == 0x100 * v + u % 0x100 && v == 0x100 * w + v % 0x100 && w == 0x100 * (w / 0x100) + w % 0x100;
    assert u / 0x1_0000 == w && u / 0x100_0000 == w / 0x100;
  }

  /** What one `write` comes to: it moves up to n bytes, it is interrupted, or it fails. */
  datatype Io = Moves(n: nat) | Interrupted | Fails

  function Least(a: nat, b: nat): nat {
    if a < b then a else b
  }

  /** How many of `left` bytes get through. */
  function Through(script: seq<Io>, left: nat): nat
    decreases script
  {
    if script == [] || left == 0 then 0
    else match script[0]
      case Moves(0) => 0
      case Moves(n) => Least(n, left) + Through(script[1..], left - Least(n, left))
      case Interrupted => Through(script[1..], left)
      case Fails => 0
  }

  lemma {:induction false} ThroughIsBounded(script: seq<Io>, left: nat)
    ensures Through(script, left) <= left
    decreases script
  {
    if script != [] && left > 0 {
      match script[0]
      case Moves(n) => ThroughIsBounded(script[1..], left - Least(n, left));
      case Interrupted => ThroughIsBounded(script[1..], left);
      case Fails =>
    }
  }

  /** The bytes the calls move until one fails or moves nothing; interruptions do not count. */
  function Moved(script: seq<Io>): nat {
    if script == [] || script[0] == Fails || script[0] == Moves(0) then 0
    else (if script[0].Moves? then script[0].n else 0) + Moved(script[1..])
  }

  /** What gets through is as much as the calls move, up to all of it. */
  lemma {:induction false} ThroughIsWhatMoves(script: seq<Io>, left: nat)
    ensures Through(script, left) == if Moved(script) < left then Moved(script) else left
    decreases script
  {
    if script != [] && left > 0 {
      match script[0]
      case Moves(n) => ThroughIsWhatMoves(script[1..], left - Least(n, left));
      case Interrupted => ThroughIsWhatMoves(script[1..], left);
      case Fails =>
    }
  }

  /** The child's side; running out of script is the child dying in the middle of it. */
  method WriteErrno(e: errno, script: seq<Io>) returns (pipe: bytes)
    ensures Through(script, 4) <= 4 && pipe == LittleEndian(e)[..Through(script, 4)]
  {
    var b := LittleEndian(e);
    var written: nat := 0;
    var calls := script;
    ThroughIsBounded(script, 4);
    while written < |b| && calls != []
      invariant written <= 4
      invariant written + Through(calls, 4 - written) == Through(script, 4)
      decreases |calls|
    {
      var io := calls[0];
      calls := calls[1..];
      match io {
        case Interrupted => continue;
        case Fails => return b[..written];
        case Moves(n) =>
          if n == 0 {
            return b[..written];
          }
          written := written + Least(n, |b| - written);
      }
    }
    return b[..written];
  }

  /** What the parent makes of the pipe's contents when no read fails. */
  function Parsed(pipe: bytes): Option<errno> {
    if |pipe| >= 4 then Some(FromLittleEndian(pipe[..4])) else None
  }

  type positive = n: nat | n > 0 witness 1

  /** What one `read` comes to: up to `most` bytes, none only at the end of the pipe. */
  datatype ReadCall = Returns(most: positive) | ReadInterrupted | ReadFails

  /** How the parent's reading goes: whether the `dup` works, then the reads one by one; those
      after the last one listed return all there is. */
  datatype PipeRead = PipeRead(dup: bool, calls: seq<ReadCall>)

  /** A read fails before there are four bytes or a read has seen the end of the pipe; `have`
      of the pipe's bytes have been read. */
  predicate FailsReading(calls: seq<ReadCall>, have: nat, pipe: nat)
    decreases calls
  {
    have < 4 && calls != [] &&
    match calls[0]
    case ReadFails => true
    case ReadInterrupted => FailsReading(calls[1..], have, pipe)
    case Returns(n) => have < pipe && FailsReading(calls[1..], have + Least(n, Least(pipe, 4) - have), pipe)
  }

  /** What these reads ask for together. */
  function Asked(calls: seq<ReadCall>): nat {
    if calls == [] then 0 else (if calls[0].Returns? then calls[0].most else 0) + Asked(calls[1..])
  }

  /** After these reads no more are made: there are four bytes, or a read has come to the end of
      the pipe. */
  ghost predicate StopsReading(calls: seq<ReadCall>, have: nat, pipe: nat) {
    || (pipe >= 4 && have + Asked(calls) >= 4)
    || exists m :: 0 <= m < |calls| && calls[m].Returns? && have + Asked(calls[..m]) >= pipe
  }

  lemma {:induction false} AskedMore(calls: seq<ReadCall>, m: nat)
    requires m <= |calls|
    ensures Asked(calls[..m]) <= Asked(calls)
  {
    if m > 0 {
      assert calls[..m][1..] == calls[1..][..m - 1];
      AskedMore(calls[1..], m - 1);
    }
  }

  lemma StopsOneLater(call: ReadCall, rest: seq<ReadCall>, have: nat, pipe: nat)
    requires have < 4 && have <= pipe && (call.Returns? ==> have < pipe)
    ensures var now := if call.Returns? then have + Least(call.most, Least(pipe, 4) - have) else have;
            StopsReading([call] + rest, have, pipe) <==> StopsReading(rest, now, pipe)
  {
    var calls := [call] + rest;
    var now := if call.Returns? then have + Least(call.most, Least(pipe, 4) - have) else have;
    assert calls[1..] == rest;
    forall m | 0 <= m <= |rest|
      ensures Asked(calls[..m + 1]) == (if call.Returns? then call.most else 0) + Asked(rest[..m])
      ensures Asked(rest[..m]) <= Asked(rest)
    {
      assert calls[..m + 1][1..] == rest[..m];
      AskedMore(rest, m);
    }
    if m :| 0 <= m < |calls| && calls[m].Returns? && have + Asked(calls[..m]) >= pipe {
      assert calls[..0] == [];
      assert m > 0 && rest[m - 1].Returns?;
      assert pipe < 4 ==> now + Asked(rest[..m - 1]) >= pipe;
    }
    if m :| 0 <= m < |rest| && rest[m].Returns? && now + Asked(rest[..m]) >= pipe {
      assert calls[m + 1].Returns?;
    }
  }

  /** Reading reports an error exactly if some read fails before reading has stopped. */
  lemma {:induction false} FailsReadingExactly(calls: seq<ReadCall>, have: nat, pipe: nat)
    requires have <= pipe
    ensures FailsReading(calls, have, pipe)
       <==> exists k :: 0 <= k < |calls| && calls[k] == ReadFails && !StopsReading(calls[..k], have, pipe)
    decreases calls
  {
    if have < 4 && calls != [] {
      var call, rest := calls[0], calls[1..];
      var now := if call.Returns? && have < pipe then have + Least(call.most, Least(pipe, 4) - have) else have;
      FailsReadingExactly(rest, now, pipe);
      if call == ReadFails {
        assert calls[..0] == [] && !StopsReading([], have, pipe);
      } else if call.Returns? && have >= pipe {
        forall k | 0 < k < |calls| ensures StopsReading(calls[..k], have, pipe) {
          assert calls[..k][0] == call && calls[..k][..0] == [];
        }
      } else {
        forall k | 0 <= k < |rest| ensures StopsReading(calls[..k + 1], have, pipe) <==> StopsReading(rest[..k], now, pipe) {
          assert calls[..k + 1] == [call] + rest[..k];
          StopsOneLater(call, rest[..k], have, pipe);
        }
        if k :| 0 <= k < |rest| && rest[k] == ReadFails && !StopsReading(rest[..k], now, pipe) {
          assert calls[k + 1] == ReadFails;
        }
        if k :| 0 <= k < |calls| && calls[k] == ReadFails && !StopsReading(calls[..k], have, pipe) {
          assert rest[k - 1] == ReadFails;
        }
      }
    } else if have >= 4 {
      forall k | 0 <= k < |calls| ensures StopsReading(calls[..k], have, pipe) {
      }
    }
  }

  predicate ReadErrorReported(pipe: bytes, r: PipeRead) {
    !r.dup || FailsReading(r.calls, 0, |pipe|)
  }

  /** What the host learns: it takes a read error for no errno. */
  function Learnt(pipe: bytes, r: PipeRead): Option<errno> {
    if ReadErrorReported(pipe, r) then None else Parsed(pipe)
  }

  /** The parent's side: short reads are put together and the end of the pipe stops it. */
  method ReadErrno(pipe: bytes, r: PipeRead) returns (failed: bool, found: Option<errno>)
    ensures failed <==> ReadErrorReported(pipe, r)
    ensures found == Learnt(pipe, r)
  {
    if !r.dup {
      return true, None;
    }
    var buf: bytes := [];
    var calls := r.calls;
    while |buf| < 4
      invariant |buf| <= 4 && buf <= pipe
      invariant FailsReading(calls, |buf|, |pipe|) == FailsReading(r.calls, 0, |pipe|)
      decreases 4 - |buf|, |calls|
    {
      var most: nat := 4;
      if calls != [] {
        var call := calls[0];
        calls := calls[1..];
        match call {
          case ReadFails => return true, None;
          case ReadInterrupted => continue;
          case Returns(n) => most := n;
        }
      }
      if |buf| == |pipe| {
        return false, None;
      }
      var n := Least(most, Least(|pipe|, 4) - |buf|);
      assert pipe[..|buf| + n] == buf + pipe[|buf|..|buf| + n];
      buf := buf + pipe[|buf|..|buf| + n];
    }
    assert buf == pipe[..4];
    return false, Some(FromLittleEndian(buf));
  }

  /** However the writes and the reads are cut, the parent learns the errno exactly when all
      four bytes got through, and never a wrong one. */
  lemma ErrnoSurvivesThePipe(e: errno, script: seq<Io>)
    ensures Through(script, 4) <= 4
    ensures var pipe := LittleEndian(e)[..Through(script, 4)];
            Parsed(pipe) == if Through(script, 4) == 4 then Some(e) else None
  {
    ThroughIsBounded(script, 4);
    LittleEndianRoundTrip(e);
    var b := LittleEndian(e);
    assert b[..4] == b && b[..4][..4] == b;
  }

  // ---------- the environment ----------

  type Env = map<bytes, bytes>

  const REXEC_WHOAMI: bytes := [0x52, 0x45, 0x58, 0x45, 0x43, 0x5f, 0x57, 0x48, 0x4f, 0x41, 0x4d, 0x49]
  const EQUALS: byte := 0x3d
  const NUL: byte := 0

  /** The field a NUL byte was found in. */
  datatype Field = Argv | Program | Argument | Whoami | EnvName | EnvValue | Cwd

  datatype SpawnError = NulByte(field: Field) | InvalidEnvName(name: bytes)

  /** What is wrong with one override; its name is looked at first. */
  function OverrideError(name: bytes, value: bytes): Option<SpawnError> {
    if EQUALS in name then Some(InvalidEnvName(name))
    else if NUL in name then Some(NulByte(EnvName))
    else if NUL in value then Some(NulByte(EnvValue))
    else None
  }

  /** The first error among the overrides. */
  function CheckEnv(envs: seq<(bytes, bytes)>): (error: Option<SpawnError>)
    ensures error == None <==> forall k :: 0 <= k < |envs| ==> OverrideError(envs[k].0, envs[k].1) == None
  {
    if envs == [] then None
    else
      assert envs == [envs[0]] + envs[1..];
      if OverrideError(envs[0].0, envs[0].1).Some? then OverrideError(envs[0].0, envs[0].1) else CheckEnv(envs[1..])
  }

  /** It is the first offending override that decides. */
  lemma {:induction false} CheckEnvIsTheFirst(envs: seq<(bytes, bytes)>, k: nat)
    requires k < |envs| && OverrideError(envs[k].0, envs[k].1).Some?
    requires forall j :: 0 <= j < k ==> OverrideError(envs[j].0, envs[j].1) == None
    ensures CheckEnv(envs) == OverrideError(envs[k].0, envs[k].1)
    ensures EQUALS in envs[k].0 ==> CheckEnv(envs) == Some(InvalidEnvName(envs[k].0))
    ensures EQUALS !in envs[k].0 && NUL in envs[k].0 ==> CheckEnv(envs) == Some(NulByte(EnvName))
    ensures EQUALS !in envs[k].0 && NUL !in envs[k].0 ==> NUL in envs[k].1 && CheckEnv(envs) == Some(NulByte(EnvValue))
  {
    if k > 0 {
      CheckEnvIsTheFirst(envs[1..], k - 1);
    }
  }

  /** What `spawn` refuses before it makes the pipe and forks, in the order in which it looks. */
  function Refusal(whoami: bytes, argv: seq<bytes>, envs: seq<(bytes, bytes)>, cwd: bytes): (error: Option<SpawnError>)
    ensures error == None <==>
      && argv != [] && (forall arg :: arg in argv ==> NUL !in arg)
      && NUL !in whoami && NUL !in cwd
      && (forall k :: 0 <= k < |envs| ==> EQUALS !in envs[k].0 && NUL !in envs[k].0 && NUL !in envs[k].1)
  {
    assert argv != [] ==> argv[0] in argv;
    if argv == [] then Some(NulByte(Argv))
    else if NUL in argv[0] then Some(NulByte(Program))
    else if exists arg :: arg in argv && NUL in arg then Some(NulByte(Argument))
    else if NUL in whoami then Some(NulByte(Whoami))
    else if CheckEnv(envs).Some? then CheckEnv(envs)
    else if NUL in cwd then Some(NulByte(Cwd))
    else None
  }

  /** Which error it is: the first that applies, in this order. */
  lemma RefusalOrder(whoami: bytes, argv: seq<bytes>, envs: seq<(bytes, bytes)>, cwd: bytes)
    ensures argv == [] ==> Refusal(whoami, argv, envs, cwd) == Some(NulByte(Argv))
    ensures argv != [] && NUL in argv[0] ==> Refusal(whoami, argv, envs, cwd) == Some(NulByte(Program))
    ensures argv != [] && NUL !in argv[0] ==>
              && ((exists arg :: arg in argv && NUL in arg) ==> Refusal(whoami, argv, envs, cwd) == Some(NulByte(Argument)))
              && ((forall arg :: arg in argv ==> NUL !in arg) ==>
                    && (NUL in whoami ==> Refusal(whoami, argv, envs, cwd) == Some(NulByte(Whoami)))
                    && (NUL !in whoami && CheckEnv(envs).Some? ==> Refusal(whoami, argv, envs, cwd) == CheckEnv(envs))
                    && (NUL !in whoami && CheckEnv(envs) == None && NUL in cwd ==>
                          Refusal(whoami, argv, envs, cwd) == Some(NulByte(Cwd))))
  {
  }

  function Names(envs: seq<(bytes, bytes)>): set<bytes> {
    set o | o in envs :: o.0
  }

  /** `setenv` with overwriting; it fails on an empty name. */
  function SetEnv(env: Env, name: bytes, value: bytes): Option<Env> {
    if name == [] then None else Some(env[name := value])
  }

  /** The `setenv` calls one after the other; None when one failed. */
  function Overlaid(env: Env, envs: seq<(bytes, bytes)>): Option<Env> {
    if envs == [] then Some(env)
    else match Overlaid(env, envs[..|envs| - 1])
      case None => None
      case Some(e) => SetEnv(e, envs[|envs| - 1].0, envs[|envs| - 1].1)
  }

  function ChildEnvironment(inherited: Env, clear: bool, envs: seq<(bytes, bytes)>, whoami: bytes): Option<Env> {
    match Overlaid(if clear then map[] else inherited, envs)
    case None => None
    case Some(e) => SetEnv(e, REXEC_WHOAMI, whoami)
  }

  /** A later override of the same name wins; what is not overridden stays. */
  lemma {:induction false} OverlayIsLastWins(env: Env, envs: seq<(bytes, bytes)>, name: bytes)
    ensures Overlaid(env, envs) == None <==> [] in Names(envs)
    ensures Overlaid(env, envs).Some? ==>
      var e := Overlaid(env, envs).value;
      && (name in e <==> name in env || name in Names(envs))
      && (name !in Names(envs) && name in env ==> e[name] == env[name])
      && (forall k :: 0 <= k < |envs| && envs[k].0 == name && (forall j :: k < j < |envs| ==> envs[j].0 != name) ==>
            name in e && e[name] == envs[k].1)
  {
    if envs != [] {
      var before, last := envs[..|envs| - 1], envs[|envs| - 1];
      assert envs == before + [last];
      assert Names(envs) == Names(before) + {last.0};
      OverlayIsLastWins(env, before, name);
      assert forall k :: 0 <= k < |before| ==> before[k] == envs[k];
    }
  }

  /** The child's REXEC_WHOAMI is the request's identity, whatever was inherited or overridden;
      any other name has its last override, or what was inherited unless that was cleared. */
  lemma ChildSeesItsIdentity(inherited: Env, clear: bool, envs: seq<(bytes, bytes)>, whoami: bytes, name: bytes)
    ensures var r := ChildEnvironment(inherited, clear, envs, whoami);
            && (r == None <==> [] in Names(envs))
            && (r.Some? ==>
                  && REXEC_WHOAMI in r.value && r.value[REXEC_WHOAMI] == whoami
                  && (name != REXEC_WHOAMI ==>
                        && (name in r.value <==> (!clear && name in inherited) || name in Names(envs))
                        && (name !in Names(envs) && name in r.value ==> r.value[name] == inherited[name])
                        && (forall k :: 0 <= k < |envs| && envs[k].0 == name && (forall j :: k < j < |envs| ==> envs[j].0 != name)
                              ==> name in r.value && r.value[name] == envs[k].1)))
  {
    OverlayIsLastWins(if clear then map[] else inherited, envs, name);
  }

  // ---------- the client's overrides ----------

  /** The insertions one after the other; a later one replaces an earlier one of the same name. */
  function Inserted(envs: seq<(bytes, bytes)>): Env {
    if envs == [] then map[]
    else Inserted(envs[..|envs| - 1])[envs[|envs| - 1].0 := envs[|envs| - 1].1]
  }

  /** The loop over the `--env` options in `run`. */
  method CollectEnvs(options: seq<(bytes, bytes)>) returns (envs: Env)
    ensures envs == Inserted(options)
  {
    envs := map[];
    for i := 0 to |options|
      invariant envs == Inserted(options[..i])
    {
      assert options[..i + 1][..i] == options[..i];
      envs := envs[options[i].0 := options[i].1];
    }
    assert options[..|options|] == options;
  }

  lemma {:induction false} InsertedFirst(envs: seq<(bytes, bytes)>)
    requires envs != []
    ensures Inserted(envs) == map[envs[0].0 := envs[0].1] + Inserted(envs[1..])
  {
    if |envs| > 1 {
      var before, last := envs[..|envs| - 1], envs[|envs| - 1];
      InsertedFirst(before);
      assert envs[1..][..|envs| - 2] == before[1..] && envs[1..][|envs| - 2] == last;
    } else {
      assert envs[..0] == [];
    }
  }

  /** The `setenv` calls overlay what the insertions collect; they fail exactly on an empty name. */
  lemma {:induction false} OverlayIsInserted(env: Env, envs: seq<(bytes, bytes)>)
    ensures Overlaid(env, envs) == if [] in Names(envs) then None else Some(env + Inserted(envs))
    ensures Inserted(envs).Keys == Names(envs)
  {
    if envs == [] {
      assert env + map[] == env;
    } else {
      var before, last := envs[..|envs| - 1], envs[|envs| - 1];
      assert envs == before + [last];
      assert Names(envs) == Names(before) + {last.0};
      OverlayIsInserted(env, before);
      var sofar := Inserted(before);
      assert Inserted(envs) == sofar[last.0 := last.1];
      assert env + sofar[last.0 := last.1] == (env + sofar)[last.0 := last.1];
      assert [] in Names(envs) <==> [] in Names(before) || last.0 == [];
    }
  }

  /** The order in which a map is gone through: each of its bindings once. */
  predicate Lists(envs: seq<(bytes, bytes)>, m: Env) {
    && Inserted(envs) == m
    && forall j, k :: 0 <= j < k < |envs| ==> envs[j].0 != envs[k].0
  }

  ghost function Listing(m: Env): (envs: seq<(bytes, bytes)>)
    ensures Lists(envs, m)
    decreases |m|
  {
    if m == map[] then []
    else
      var name :| name in m;
      var rest := m - {name};
      assert m.Keys == rest.Keys + {name};
      OneMoreListed(Listing(rest), rest, name, m[name]);
      assert rest[name := m[name]] == m;
      Listing(rest) + [(name, m[name])]
  }

  lemma OneMoreListed(envs: seq<(bytes, bytes)>, m: Env, name: bytes, value: bytes)
    requires Lists(envs, m) && name !in m
    ensures Lists(envs + [(name, value)], m[name := value])
  {
    var more := envs + [(name, value)];
    assert more[..|envs|] == envs;
    OverlayIsInserted(map[], envs);
    forall j | 0 <= j < |envs| ensures envs[j].0 != name {
      assert envs[j].0 in Names(envs);
    }
  }

  /** From the command line to the child: collecting the options in a map and setting its
      bindings in any order gives what setting the options one by one would. */
  lemma CollectedOptionsOverlay(inherited: Env, clear: bool, options: seq<(bytes, bytes)>, listed: seq<(bytes, bytes)>, whoami: bytes)
    requires Lists(listed, Inserted(options))
    ensures ChildEnvironment(inherited, clear, listed, whoami) == ChildEnvironment(inherited, clear, options, whoami)
  {
    var env := if clear then map[] else inherited;
    OverlayIsInserted(env, listed);
    OverlayIsInserted(env, options);
  }

  // ---------- the child's calls ----------

  datatype Call = Dup2 | Chdir | ClearEnv | SetVariable(name: bytes, value: bytes) | Exec

  /** How a call goes; the child may also be killed before it is made. */
  datatype Outcome = Works | FailsWith(code: errno) | Dies

  const EINVAL: errno := 22

  function SetVariables(envs: seq<(bytes, bytes)>): seq<Call> {
    seq(|envs|, i requires 0 <= i < |envs| => SetVariable(envs[i].0, envs[i].1))
  }

  /** The calls between the fork and the program, in order. */
  function Calls(clear: bool, envs: seq<(bytes, bytes)>, whoami: bytes): seq<Call> {
    [Dup2, Chdir] + (if clear then [ClearEnv] else []) + SetVariables(envs) + [SetVariable(REXEC_WHOAMI, whoami), Exec]
  }

  /** What comes when: standard input, then the directory, then the environment, cleared first
      if it is; the identity after every override; the program last. Each of them once. */
  lemma CallsInOrder(clear: bool, envs: seq<(bytes, bytes)>, whoami: bytes)
    ensures var calls := Calls(clear, envs, whoami);
            var n := if clear then 3 else 2;
            && |calls| == n + |envs| + 2
            && calls[0] == Dup2 && calls[1] == Chdir && (clear ==> calls[2] == ClearEnv)
            && (forall k :: 0 <= k < |envs| ==> calls[n + k] == SetVariable(envs[k].0, envs[k].1))
            && calls[|calls| - 2] == SetVariable(Ascii("REXEC_WHOAMI"), whoami)
            && calls[|calls| - 1] == Exec
  {
    assert REXEC_WHOAMI == Ascii("REXEC_WHOAMI");
  }

  /** `setenv` never takes an empty name. */
  function Result(call: Call, o: Outcome): Outcome {
    if call.SetVariable? && call.name == [] && o == Works then FailsWith(EINVAL) else o
  }

  function Effect(env: Env, call: Call): Env {
    match call
    case ClearEnv => map[]
    case SetVariable(name, value) => env[name := value]
    case _ => env
  }

  /** What becomes of the child: the program runs in this environment, a call failed, or the
      child was killed on the way. */
  datatype ChildEnd = Executed(env: Env) | Failed(code: errno) | Died

  function RunChild(env: Env, calls: seq<Call>, outcomes: seq<Outcome>): ChildEnd
    decreases calls
  {
    if calls == [] then Executed(env)
    else if outcomes == [] then Died
    else match Result(calls[0], outcomes[0])
      case Works => RunChild(Effect(env, calls[0]), calls[1..], outcomes[1..])
      case FailsWith(e) => Failed(e)
      case Dies => Died
  }

  /** What the child leaves in the errno pipe. */
  function PipeAfter(end: ChildEnd, writes: seq<Io>): bytes {
    ThroughIsBounded(writes, 4);
    if end.Failed? then LittleEndian(end.code)[..Through(writes, 4)] else []
  }

  /** One call, and whether the child goes on. */
  method Attempt(call: Call, left: seq<Outcome>) returns (result: Outcome, rest: seq<Outcome>)
    ensures result == if left == [] then Dies else Result(call, left[0])
    ensures rest == if left == [] then [] else left[1..]
  {
    if left == [] {
      return Dies, [];
    }
    return Result(call, left[0]), left[1..];
  }

  /** `write_errno` and `_exit` after a call that did not work. */
  method GiveUp(result: Outcome, writes: seq<Io>) returns (end: ChildEnd, pipe: bytes)
    requires result != Works
    ensures end == if result.FailsWith? then Failed(result.code) else Died
    ensures pipe == PipeAfter(end, writes)
  {
    if result.FailsWith? {
      end := Failed(result.code);
      pipe := WriteErrno(result.code, writes);
    } else {
      end, pipe := Died, [];
    }
  }

  /** The overrides, the identity last, and the program. */
  method EnterProgram(start: Env, envs: seq<(bytes, bytes)>, whoami: bytes, outcomes: seq<Outcome>, writes: seq<Io>)
    returns (end: ChildEnd, pipe: bytes)
    ensures end == RunChild(start, SetVariables(envs) + [SetVariable(REXEC_WHOAMI, whoami), Exec], outcomes)
    ensures pipe == PipeAfter(end, writes)
  {
    hide PipeAfter;
    var env, left, result := start, outcomes, Works;
    ghost var last := [SetVariable(REXEC_WHOAMI, whoami), Exec];
    assert SetVariables(envs[0..]) == SetVariables(envs);
    for i := 0 to |envs|
      invariant RunChild(start, SetVariables(envs) + last, outcomes) == RunChild(env, SetVariables(envs[i..]) + last, left)
    {
      var (name, value) := envs[i];
      assert (SetVariables(envs[i..]) + last)[1..] == SetVariables(envs[i + 1..]) + last;
      result, left := Attempt(SetVariable(name, value), left);
      if result != Works {
        end, pipe := GiveUp(result, writes);
        return;
      }
      env := env[name := value];
    }
    assert SetVariables(envs[|envs|..]) + last == last && last[1..] == [Exec] && [Exec][1..] == [];
    result, left := Attempt(SetVariable(REXEC_WHOAMI, whoami), left);
    if result != Works {
      end, pipe := GiveUp(result, writes);
      return;
    }
    env := env[REXEC_WHOAMI := whoami];
    result, left := Attempt(Exec, left);
    if result != Works {
      end, pipe := GiveUp(result, writes);
      return;
    }
    end, pipe := Executed(env), [];
    NothingWritten(env, writes);
  }

  /** The child's side of `spawn`. */
  method ChildMain(inherited: Env, clear: bool, envs: seq<(bytes, bytes)>, whoami: bytes,
                   outcomes: seq<Outcome>, writes: seq<Io>)
    returns (end: ChildEnd, pipe: bytes)
    ensures end == RunChild(inherited, Calls(clear, envs, whoami), outcomes)
    ensures pipe == PipeAfter(end, writes)
  {
    hide PipeAfter;
    var env, left, result := inherited, outcomes, Works;
    ghost var sets := SetVariables(envs) + [SetVariable(REXEC_WHOAMI, whoami), Exec];
    ghost var more := (if clear then [ClearEnv] else []) + sets;
    assert Calls(clear, envs, whoami) == [Dup2] + ([Chdir] + more);
    assert ([Dup2] + ([Chdir] + more))[1..] == [Chdir] + more && ([Chdir] + more)[1..] == more;
    result, left := Attempt(Dup2, left);
    if result != Works {
      end, pipe := GiveUp(result, writes);
      return;
    }
    result, left := Attempt(Chdir, left);
    if result != Works {
      end, pipe := GiveUp(result, writes);
      return;
    }
    assert RunChild(inherited, Calls(clear, envs, whoami), outcomes) == RunChild(inherited, more, left);
    if clear {
      assert more[1..] == sets;
      result, left := Attempt(ClearEnv, left);
      if result != Works {
        end, pipe := GiveUp(result, writes);
        return;
      }
      env := map[];
    } else {
      assert more == sets;
    }
    end, pipe := EnterProgram(env, envs, whoami, left, writes);
  }

  lemma NothingWritten(env: Env, writes: seq<Io>)
    ensures PipeAfter(Executed(env), writes) == []
  {
  }

  /** Call k is the first that does not work, and it fails with e. */
  predicate FirstFailure(calls: seq<Call>, outcomes: seq<Outcome>, k: nat, e: errno) {
    && k < |calls| && k < |outcomes|
    && (forall j :: 0 <= j < k ==> Result(calls[j], outcomes[j]) == Works)
    && Result(calls[k], outcomes[k]) == FailsWith(e)
  }

  /** A call failed: it, and nothing after it, was reached. */
  ghost predicate SomeCallFails(calls: seq<Call>, outcomes: seq<Outcome>, e: errno) {
    exists k: nat :: FirstFailure(calls, outcomes, k, e)
  }

  lemma {:induction false} FailedMeansACallFails(env: Env, calls: seq<Call>, outcomes: seq<Outcome>, e: errno)
    ensures RunChild(env, calls, outcomes) == Failed(e) <==> SomeCallFails(calls, outcomes, e)
    decreases calls
  {
    if calls != [] && outcomes != [] {
      var rest, left := calls[1..], outcomes[1..];
      FailedMeansACallFails(Effect(env, calls[0]), rest, left, e);
      if Result(calls[0], outcomes[0]) == Works {
        if k: nat :| FirstFailure(rest, left, k, e) {
          assert FirstFailure(calls, outcomes, k + 1, e);
        }
        if k: nat :| FirstFailure(calls, outcomes, k, e) {
          assert FirstFailure(rest, left, k - 1, e);
        }
      } else if Result(calls[0], outcomes[0]) == FailsWith(e) {
        assert FirstFailure(calls, outcomes, 0, e);
      }
    }
  }

  /** From the child's calls to what the host learns: an errno exactly when a call failed, all
      four bytes got through and no read failed, and then it is that call's. */
  lemma HostLearnsTheFailure(env: Env, calls: seq<Call>, outcomes: seq<Outcome>, writes: seq<Io>, r: PipeRead, e: errno)
    ensures var pipe := PipeAfter(RunChild(env, calls, outcomes), writes);
            Learnt(pipe, r) == Some(e)
            <==> SomeCallFails(calls, outcomes, e) && Through(writes, 4) == 4 && !ReadErrorReported(pipe, r)
  {
    hide LittleEndian, FromLittleEndian, FailsReading, RunChild, SomeCallFails;
    FailedMeansACallFails(env, calls, outcomes, e);
    var end := RunChild(env, calls, outcomes);
    if end.Failed? {
      ErrnoSurvivesThePipe(end.code, writes);
    }
  }

  predicate AllWork(outcomes: seq<Outcome>, n: nat) {
    n <= |outcomes| && forall k :: 0 <= k < n ==> outcomes[k] == Works
  }

  lemma OneMoreWorks(outcomes: seq<Outcome>, n: nat)
    ensures AllWork(outcomes, n + 1) <==> outcomes != [] && outcomes[0] == Works && AllWork(outcomes[1..], n)
  {
    if outcomes != [] && outcomes[0] == Works && AllWork(outcomes[1..], n) {
      forall k | 0 <= k < n + 1 ensures outcomes[k] == Works {
        assert k > 0 ==> outcomes[k] == outcomes[1..][k - 1];
      }
    }
  }

  /** The overrides, the identity and the program. */
  lemma {:induction false} VariablesRun(env: Env, envs: seq<(bytes, bytes)>, whoami: bytes, left: seq<Outcome>)
    ensures var end := RunChild(env, SetVariables(envs) + [SetVariable(REXEC_WHOAMI, whoami), Exec], left);
            && (end.Executed? <==> AllWork(left, |envs| + 2) && [] !in Names(envs))
            && (end.Executed? ==> end.env == (env + Inserted(envs))[REXEC_WHOAMI := whoami])
    decreases envs
  {
    var last := [SetVariable(REXEC_WHOAMI, whoami), Exec];
    var calls := SetVariables(envs) + last;
    if envs == [] {
      assert calls == last && last[1..] == [Exec] && [Exec][1..] == [];
      assert env + Inserted(envs) == env;
    } else if left != [] {
      var (name, value) := envs[0];
      assert calls[1..] == SetVariables(envs[1..]) + last;
      assert envs == [envs[0]] + envs[1..];
      OneMoreWorks(left, |envs| + 1);
      VariablesRun(env[name := value], envs[1..], whoami, left[1..]);
      InsertedFirst(envs);
      assert env[name := value] + Inserted(envs[1..]) == env + Inserted(envs);
    }
  }

  /** The program runs exactly when every call works, none with an empty name, and then in the
      environment that the overrides describe. */
  lemma ExecutedEnvironment(inherited: Env, clear: bool, envs: seq<(bytes, bytes)>, whoami: bytes, outcomes: seq<Outcome>)
    ensures var calls := Calls(clear, envs, whoami);
            var end := RunChild(inherited, calls, outcomes);
            && (end.Executed? <==> AllWork(outcomes, |calls|) && [] !in Names(envs))
            && (end.Executed? ==> ChildEnvironment(inherited, clear, envs, whoami) == Some(end.env))
  {
    hide AllWork;
    var start := if clear then map[] else inherited;
    OverlayIsInserted(start, envs);
    FirstCallsRun(inherited, clear, envs, whoami, outcomes);
  }

  lemma FirstCallsRun(inherited: Env, clear: bool, envs: seq<(bytes, bytes)>, whoami: bytes, outcomes: seq<Outcome>)
    ensures var calls := Calls(clear, envs, whoami);
            var end := RunChild(inherited, calls, outcomes);
            && (end.Executed? <==> AllWork(outcomes, |calls|) && [] !in Names(envs))
            && (end.Executed? ==>
                  end.env == ((if clear then map[] else inherited) + Inserted(envs))[REXEC_WHOAMI := whoami])
  {
    hide AllWork, RunChild;
    var sets := SetVariables(envs) + [SetVariable(REXEC_WHOAMI, whoami), Exec];
    var more := (if clear then [ClearEnv] else []) + sets;
    assert Calls(clear, envs, whoami) == [Dup2] + ([Chdir] + more);
    var left := if outcomes == [] then [] else outcomes[1..];
    var later := if left == [] then [] else left[1..];
    CallRuns(inherited, Dup2, [Chdir] + more, outcomes);
    CallRuns(inherited, Chdir, more, left);
    if clear {
      CallRuns(inherited, ClearEnv, sets, later);
      VariablesRun(map[], envs, whoami, if later == [] then [] else later[1..]);
    } else {
      assert more == sets;
      VariablesRun(inherited, envs, whoami, later);
    }
  }

  /** One call that sets no variable, in front of others. */
  lemma CallRuns(env: Env, call: Call, rest: seq<Call>, outcomes: seq<Outcome>)
    requires !call.SetVariable?
    ensures var end := RunChild(env, [call] + rest, outcomes);
            && (end.Executed? <==>
                  outcomes != [] && outcomes[0] == Works && RunChild(Effect(env, call), rest, outcomes[1..]).Executed?)
            && (end.Executed? ==> end == RunChild(Effect(env, call), rest, outcomes[1..]))
    ensures AllWork(outcomes, |[call] + rest|) <==> outcomes != [] && outcomes[0] == Works && AllWork(outcomes[1..], |rest|)
  {
    assert ([call] + rest)[1..] == rest;
    OneMoreWorks(outcomes, |rest|);
  }
}
