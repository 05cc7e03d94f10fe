/**
 * The privileged daemon of forestd/main.go: the per-connection request loop
 * handleRequest, the mapping from one wg-quick run to a status in execute,
 * and the mapping from `wg show` output to 0 or 1 in isActiveWireGuard.
 *
 * The loop is a state machine over the variables that live across its
 * iterations (knownActions, command, config, status), plus two records of
 * what the loop did: the status of every response it attempted to write (a
 * failed Write is only logged) and the argument vector of every process
 * started. Each iteration meets a Round supplied by
 * the outside world: the frame Read returns, how a process started in it
 * would end, and what `wg show` would print.
 */
module Forestd {
  import opened Wrappers
  import opened GoStrings

  /** How one run of an *exec.Cmd ends, as execute observes it. */
  datatype ProcessOutcome =
    | CleanExit                      // Start and Wait both succeed
    | ExitError(exitStatus: int)     // Wait returns an *exec.ExitError carrying a syscall.WaitStatus
    | ExitErrorWithoutStatus         // an *exec.ExitError whose Sys() is not a syscall.WaitStatus
    | StartFailed                    // Start fails; the Wait that follows reports "not started"
    | WaitFailed                     // Wait fails with an error that is not an *exec.ExitError

  /**
   * execute: the process's exit status when Wait fails with an exit error
   * that carries one, and 0 in every other case, a failed Start included.
   */
  function Execute(o: ProcessOutcome): (status: int)
    ensures o.ExitError? ==> status == o.exitStatus
    ensures !o.ExitError? ==> status == 0
  {
    match o
    case ExitError(code) => code
    case _ => 0
  }

  /** What `wg show` gave: its standard output, and whether Output also returned an error. */
  datatype ProbeOutcome = ProbeOutcome(stdout: seq<bv8>, failed: bool)

  /** isActiveWireGuard: 1 when `wg show` printed anything, otherwise 0. */
  function IsActiveWireGuard(p: ProbeOutcome): (status: int)
    ensures status == 1 <==> |p.stdout| > 0
    ensures status == 0 <==> |p.stdout| == 0
  {
    if |p.stdout| > 0 then 1 else 0
  }

  /** An *exec.Cmd built by the handler: its argument vector, and whether a process was started for it. */
  datatype Cmd = Cmd(args: seq<string>, started: bool)

  function WgQuick(direction: string, config: string): Cmd {
    Cmd(["wg-quick", direction, config], false)
  }

  /** The status of one execute call, the Cmd afterwards, and the processes it started (none or one). */
  datatype Run = Run(status: int, cmd: Cmd, launched: seq<seq<string>>)

  /**
   * One execute call on `cmd`. os/exec starts a process for a Cmd at most
   * once: Start on a Cmd that already started one fails, and the Wait after
   * it fails with an error that is not an *exec.ExitError, so such a call
   * reports 0 and starts nothing. A Cmd whose Start failed is tried again.
   */
  function RunCmd(cmd: Cmd, o: ProcessOutcome): (r: Run)
    ensures cmd.started ==> r == Run(0, cmd, [])
    ensures !cmd.started ==> r.status == Execute(o)
    ensures r.cmd.args == cmd.args
    ensures r.launched == [] || r.launched == [cmd.args]
    ensures r.launched != [] <==> !cmd.started && !o.StartFailed?
  {
    if cmd.started then Run(0, cmd, [])
    else if o.StartFailed? then Run(Execute(o), cmd, [])
    else Run(Execute(o), cmd.(started := true), [cmd.args])
  }

  /** What Read returned: the frame content, and whether it also returned an error (which is only logged). */
  datatype Frame = Frame(content: string, readFailed: bool)

  /** What one iteration of the loop meets. */
  datatype Round = Round(frame: Frame, process: ProcessOutcome, probe: ProbeOutcome)

  /** The handler's variables, and what it has attempted to write and started so far. */
  datatype State = State(
    knownActions: seq<string>,
    command: Option<Cmd>,
    config: string,
    status: int,
    responses: seq<int>,
    launched: seq<seq<string>>)

  /** The state at the start of handleRequest: nil slice, nil command, zero values. */
  const Initial: State := State([], None, "", 0, [], [])

  /** The two names appended to knownActions on every iteration. */
  const Verbs: seq<string> := ["connect", "disconnect"]

  /** The result of one iteration: go on reading, leave the loop on the quit sentinel, or panic. */
  datatype StepResult = Next(state: State) | Quit(state: State) | Panic(state: State)

  /** Writing the status and the delimiter back to the client. */
  function Respond(s: State): StepResult {
    Next(s.(responses := s.responses + [s.status]))
  }

  /**
   * One iteration of the loop in handleRequest: leave on the quit sentinel;
   * otherwise append the two verbs to knownActions and dispatch on the
   * blank-separated tokens of the frame.
   */
  function Step(s: State, r: Round, quitSign: string): (res: StepResult)
    ensures res.Quit? <==> r.frame.content == quitSign
    ensures res.Quit? ==> res.state == s
    ensures !res.Quit? ==> res.state.knownActions == s.knownActions + Verbs
    ensures s.launched <= res.state.launched
  {
    if r.frame.content == quitSign then Quit(s)
    else Dispatch(s.(knownActions := s.knownActions + Verbs), Fields(r.frame.content), r)
  }

  /** The guard in handleRequest: at least two tokens, and the first is a substring of the joined known actions. */
  function Accepted(knownActions: seq<string>, request: seq<string>): (b: bool)
    requires |request| > 0
    ensures b ==> |request| > 1 && |request[0]| <= |Join(knownActions, "")|
    ensures |request| > 1 && HasPrefix(Join(knownActions, ""), request[0]) ==> b
  {
    |request| > 1 && Contains(Join(knownActions, ""), request[0])
  }

  /** Dispatch on the request; an empty request panics at request[0]. */
  function Dispatch(s: State, request: seq<string>, r: Round): (res: StepResult)
    requires |s.knownActions| >= 2
    ensures !res.Quit?
    ensures res.state.knownActions == s.knownActions
    ensures s.launched <= res.state.launched
    ensures res.Panic? <==>
      (|request| == 0 ||
       (Accepted(s.knownActions, request) && request[0] != s.knownActions[0] && request[0] != s.knownActions[1] && s.command.None?))
  {
    if |request| == 0 then Panic(s)
    else if Accepted(s.knownActions, request) then RunVerb(s, request[0], request[1], r.process)
    else if request[0] == "status" then Respond(s.(status := IsActiveWireGuard(r.probe)))
    else Respond(s.(status := -1))
  }

  /**
   * An accepted verb: remember the config, build `wg-quick up|down` for the
   * two exact verbs and keep the previous command otherwise, then run it; a
   * nil command panics at command.String().
   */
  function RunVerb(s: State, action: string, config: string, o: ProcessOutcome): (res: StepResult)
    requires |s.knownActions| >= 2
    ensures !res.Quit?
    ensures res.Panic? <==> action != s.knownActions[0] && action != s.knownActions[1] && s.command.None?
    ensures res.state.config == config && res.state.knownActions == s.knownActions
    ensures res.Next? ==> res.state.command.Some? && res.state.responses == s.responses + [res.state.status]
    ensures s.launched <= res.state.launched && |res.state.launched| <= |s.launched| + 1
  {
    var command :=
      if action == s.knownActions[0] then Some(WgQuick("up", config))
      else if action == s.knownActions[1] then Some(WgQuick("down", config))
      else s.command;
    if command.None? then Panic(s.(config := config))
    else
      var run := RunCmd(command.value, o);
      Respond(s.(command := Some(run.cmd), config := config, status := run.status,
                 launched := s.launched + run.launched))
  }

  /** How the loop stopped: quit sentinel (deferred Close), panic, or still waiting for the next frame. */
  datatype EndKind = Disconnected | Crashed | AwaitingInput

  /** The end of a run of the loop: how it stopped, the final state, and how many requests it answered. */
  datatype Ending = Ending(how: EndKind, state: State, served: nat)

  /** The loop of handleRequest over a finite prefix of the connection's rounds. */
  function Serve(s: State, rounds: seq<Round>, quitSign: string): (e: Ending)
    ensures e.served <= |rounds|
    ensures s.knownActions <= e.state.knownActions
    ensures s.launched <= e.state.launched
    decreases |rounds|
  {
    if rounds == [] then Ending(AwaitingInput, s, 0)
    else
      match Step(s, rounds[0], quitSign)
      case Quit(t) => Ending(Disconnected, t, 0)
      case Panic(t) => Ending(Crashed, t, 0)
      case Next(t) =>
        var e := Serve(t, rounds[1..], quitSign);
        e.(served := e.served + 1)
  }

  // ---------------------------------------------------------------------
  // One response per request

  /** On the quit sentinel nothing changes and nothing is written. */
  lemma QuitWritesNothing(s: State, r: Round, quitSign: string)
    requires r.frame.content == quitSign
    ensures Step(s, r, quitSign) == Quit(s)
  {
  }

  /**
   * Every iteration that does not stop writes exactly one response, the
   * status it computed; an iteration that stops writes none.
   */
  lemma StepResponds(s: State, r: Round, quitSign: string)
    ensures Step(s, r, quitSign).Next? ==>
      Step(s, r, quitSign).state.responses == s.responses + [Step(s, r, quitSign).state.status]
    ensures !Step(s, r, quitSign).Next? ==> Step(s, r, quitSign).state.responses == s.responses
    ensures Step(s, r, quitSign).Quit? <==> r.frame.content == quitSign
  {
    if r.frame.content != quitSign {
      DispatchResponds(AfterVerbs(s), Fields(r.frame.content), r);
    }
  }

  lemma DispatchResponds(s: State, request: seq<string>, r: Round)
    requires |s.knownActions| >= 2
    ensures Dispatch(s, request, r).Next? ==>
      Dispatch(s, request, r).state.responses == s.responses + [Dispatch(s, request, r).state.status]
    ensures !Dispatch(s, request, r).Next? ==> Dispatch(s, request, r).state.responses == s.responses
    ensures !Dispatch(s, request, r).Quit?
  {
  }

  /** Over a whole connection, the loop writes exactly one response per request it answers, appending to what was written. */
  lemma {:induction false} ServeAnswersEachRequest(s: State, rounds: seq<Round>, quitSign: string)
    ensures var e := Serve(s, rounds, quitSign);
      && |e.state.responses| == |s.responses| + e.served
      && s.responses <= e.state.responses
    decreases |rounds|
  {
    if rounds != [] {
      StepResponds(s, rounds[0], quitSign);
      var st := Step(s, rounds[0], quitSign);
      if st.Next? {
        ServeAnswersEachRequest(st.state, rounds[1..], quitSign);
      }
    }
  }

  /** The loop reads a new frame only after answering the previous one: it stops early only on the quit sentinel or a panic. */
  lemma {:induction false} ServeStopsEarly(s: State, rounds: seq<Round>, quitSign: string)
    ensures var e := Serve(s, rounds, quitSign);
      && (e.how == AwaitingInput ==> e.served == |rounds|)
      && (e.how != AwaitingInput ==> e.served < |rounds|)
      && (e.how == Disconnected ==> rounds[e.served].frame.content == quitSign)
    decreases |rounds|
  {
    if rounds != [] {
      StepResponds(s, rounds[0], quitSign);
      var st := Step(s, rounds[0], quitSign);
      if st.Next? {
        ServeStopsEarly(st.state, rounds[1..], quitSign);
        var e := Serve(st.state, rounds[1..], quitSign);
        if e.how == Disconnected {
          assert rounds[e.served + 1] == rounds[1..][e.served];
        }
      }
    }
  }

  /** Every frame the loop answered was not the quit sentinel: it stops at the first one. */
  lemma {:induction false} ServeStopsAtFirstSentinel(s: State, rounds: seq<Round>, quitSign: string)
    ensures var e := Serve(s, rounds, quitSign);
      forall i :: 0 <= i < e.served && i < |rounds| ==> rounds[i].frame.content != quitSign
    decreases |rounds|
  {
    if rounds != [] {
      StepResponds(s, rounds[0], quitSign);
      var st := Step(s, rounds[0], quitSign);
      if st.Next? {
        ServeStopsAtFirstSentinel(st.state, rounds[1..], quitSign);
        var e := Serve(st.state, rounds[1..], quitSign);
        forall i | 0 <= i < e.served + 1 && i < |rounds|
          ensures rounds[i].frame.content != quitSign
        {
          if i > 0 {
            assert rounds[i] == rounds[1..][i - 1];
          }
        }
      }
    }
  }

  // ---------------------------------------------------------------------
  // knownActions

  /** knownActions after n iterations: "connect", "disconnect", n times over. */
  function KnownActionsAfter(n: nat): (ka: seq<string>)
    ensures |ka| == 2 * n
  {
    if n == 0 then [] else KnownActionsAfter(n - 1) + Verbs
  }

  predicate KnownActionsShape(ka: seq<string>) {
    ka == KnownActionsAfter(|ka| / 2)
  }

  /** The string Contains searches after one iteration. */
  const VerbsJoined: string := "connectdisconnect"

  /** The string Contains searches after n iterations. */
  function VerbsRepeated(n: nat): (r: string)
    ensures |r| == 17 * n
  {
    if n == 0 then [] else VerbsRepeated(n - 1) + VerbsJoined
  }

  /** Concatenation of a sequence of strings. */
  function Concat(ws: seq<string>): string {
    if ws == [] then [] else ws[0] + Concat(ws[1..])
  }

  lemma {:induction false} JoinWithoutSeparator(ws: seq<string>)
    ensures Join(ws, "") == Concat(ws)
  {
    if |ws| == 1 {
      assert Concat(ws[1..]) == [];
    } else if |ws| > 1 {
      JoinWithoutSeparator(ws[1..]);
    }
  }

  lemma {:induction false} ConcatAppend(a: seq<string>, b: seq<string>)
    ensures Concat(a + b) == Concat(a) + Concat(b)
  {
    if a != [] {
      assert (a + b)[0] == a[0];
      assert (a + b)[1..] == a[1..] + b;
      ConcatAppend(a[1..], b);
      assert a[0] + (Concat(a[1..]) + Concat(b)) == (a[0] + Concat(a[1..])) + Concat(b);
    } else {
      assert a + b == b;
    }
  }

  lemma {:induction false} ConcatKnownActions(n: nat)
    ensures Concat(KnownActionsAfter(n)) == VerbsRepeated(n)
  {
    if n > 0 {
      ConcatKnownActions(n - 1);
      ConcatAppend(KnownActionsAfter(n - 1), Verbs);
      ConcatVerbs();
    }
  }

  lemma ConcatVerbs()
    ensures Concat(Verbs) == VerbsJoined
  {
    assert Concat(Verbs[1..][1..]) == [];
  }

  /** After n iterations, Contains searches "connectdisconnect" repeated n times. */
  lemma JoinedKnownActions(ka: seq<string>)
    requires KnownActionsShape(ka)
    ensures Join(ka, "") == VerbsRepeated(|ka| / 2)
  {
    JoinWithoutSeparator(ka);
    ConcatKnownActions(|ka| / 2);
  }

  lemma {:induction false} KnownActionsHead(n: nat)
    requires n >= 1
    ensures KnownActionsAfter(n)[0] == "connect" && KnownActionsAfter(n)[1] == "disconnect"
  {
    if n > 1 {
      KnownActionsHead(n - 1);
      assert KnownActionsAfter(n)[..2] == KnownActionsAfter(n - 1)[..2];
    }
  }

  /** knownActions keeps its shape: index 0 is always "connect" and index 1 "disconnect". */
  lemma StepKeepsKnownActions(s: State, r: Round, quitSign: string)
    requires KnownActionsShape(s.knownActions)
    ensures KnownActionsShape(Step(s, r, quitSign).state.knownActions)
    ensures r.frame.content != quitSign ==>
      && Step(s, r, quitSign).state.knownActions == s.knownActions + Verbs
      && Step(s, r, quitSign).state.knownActions[0] == "connect"
      && Step(s, r, quitSign).state.knownActions[1] == "disconnect"
  {
    var ka := s.knownActions + Verbs;
    assert |ka| / 2 == |s.knownActions| / 2 + 1;
    assert KnownActionsShape(ka);
    KnownActionsHead(|ka| / 2);
    if r.frame.content != quitSign {
      assert Step(s, r, quitSign).state.knownActions == ka;
    }
  }

  // ---------------------------------------------------------------------
  // Substring containment against the known actions

  lemma {:induction false} VerbsRepeatedPrefix(n: nat, m: nat)
    requires n <= m
    ensures VerbsRepeated(m) == VerbsRepeated(n) + VerbsRepeated(m)[17 * n..]
    decreases m - n
  {
    if n < m {
      VerbsRepeatedPrefix(n, m - 1);
    }
  }

  /** A verb accepted once is accepted on every later iteration, since the searched string only grows. */
  lemma AcceptedStaysAccepted(action: string, n: nat, m: nat)
    requires n <= m
    requires Contains(VerbsRepeated(n), action)
    ensures Contains(VerbsRepeated(m), action)
  {
    VerbsRepeatedPrefix(n, m);
    ContainsExtended(VerbsRepeated(n), VerbsRepeated(m)[17 * n..], action);
  }

  /** Substrings of "connectdisconnect" pass the containment test from the first request on. */
  lemma AcceptedAt(action: string, k: nat, n: nat)
    requires n >= 1 && OccursAt(VerbsJoined, action, k)
    ensures Contains(VerbsRepeated(n), action)
  {
    ContainsFromOccurrence(VerbsJoined, action, k);
    assert VerbsRepeated(1) == VerbsJoined;
    AcceptedStaysAccepted(action, 1, n);
  }

  /** Where the exact verbs, and "dis", sit in "connectdisconnect". */
  lemma VerbsJoinedPieces()
    ensures VerbsJoined[..7] == "connect" && VerbsJoined[7..] == "disconnect"
    ensures OccursAt(VerbsJoined, "connect", 0)
    ensures OccursAt(VerbsJoined, "disconnect", 7)
    ensures OccursAt(VerbsJoined, "dis", 7)
  {
    assert VerbsJoined[0..7] == VerbsJoined[..7] == "connect";
    assert VerbsJoined[7..17] == VerbsJoined[7..] == "disconnect";
    assert VerbsJoined[7..10] == "dis";
  }

  /** Both exact verbs pass the containment test as soon as one pair was appended. */
  lemma ExactVerbsAccepted(n: nat)
    requires n >= 1
    ensures Contains(VerbsRepeated(n), "connect")
    ensures Contains(VerbsRepeated(n), "disconnect")
  {
    VerbsJoinedPieces();
    AcceptedAt("connect", 0, n);
    AcceptedAt("disconnect", 7, n);
  }

  /** "dis" is a substring of the known actions from the first request on, though it names no verb. */
  lemma DisAccepted(n: nat)
    requires n >= 1
    ensures Contains(VerbsRepeated(n), "dis")
  {
    VerbsJoinedPieces();
    AcceptedAt("dis", 7, n);
  }

  /** The characters of the searched string. */
  predicate VerbChar(c: char) {
    c in {'c', 'o', 'n', 'e', 't', 'd', 'i', 's'}
  }

  lemma {:induction false} VerbsRepeatedChars(n: nat)
    ensures forall i :: 0 <= i < |VerbsRepeated(n)| ==> VerbChar(VerbsRepeated(n)[i])
  {
    if n > 0 {
      VerbsRepeatedChars(n - 1);
      var p := VerbsRepeated(n - 1);
      var r := VerbsRepeated(n);
      assert r == p + VerbsJoined;
      assert forall j :: 0 <= j < |VerbsJoined| ==> VerbChar(VerbsJoined[j]);
      forall i | 0 <= i < |r| ensures VerbChar(r[i]) {
        if i < |p| {
          assert r[i] == p[i];
        } else {
          assert r[i] == VerbsJoined[i - |p|];
        }
      }
    }
  }

  /** "status" is never found in the known actions: it holds an 'a'. */
  lemma StatusNeverAccepted(n: nat)
    ensures !Contains(VerbsRepeated(n), "status")
  {
    if Contains(VerbsRepeated(n), "status") {
      var k := OccurrenceFromContains(VerbsRepeated(n), "status");
      VerbsRepeatedChars(n);
      assert VerbsRepeated(n)[k + 2] == "status"[2];
      assert false;
    }
  }

  /** "disconnectconnect" is refused on the first request and accepted from the second on. */
  lemma DisconnectConnectAcceptance(n: nat)
    ensures Contains(VerbsRepeated(n), "disconnectconnect") <==> n >= 2
  {
    if n >= 2 {
      DisconnectConnectAccepted(n);
    } else {
      DisconnectConnectRefused(n);
    }
  }

  lemma DisconnectConnectAccepted(n: nat)
    requires n >= 2
    ensures Contains(VerbsRepeated(n), "disconnectconnect")
  {
    VerbsTwice();
    ContainsFromOccurrence(VerbsRepeated(2), "disconnectconnect", 7);
    AcceptedStaysAccepted("disconnectconnect", 2, n);
  }

  lemma VerbsTwice()
    ensures OccursAt(VerbsRepeated(2), "disconnectconnect", 7)
  {
    assert VerbsRepeated(2) == VerbsJoined + VerbsJoined;
    VerbsJoinedPieces();
    OccursAcross(VerbsJoined, VerbsJoined, "disconnect", "connect");
    assert "disconnect" + "connect" == "disconnectconnect";
  }

  /** A suffix of `a` followed by a prefix of `b` occurs in `a + b`. */
  lemma OccursAcross(a: string, b: string, x: string, y: string)
    requires |x| <= |a| && a[|a| - |x|..] == x
    requires |y| <= |b| && b[..|y|] == y
    ensures OccursAt(a + b, x + y, |a| - |x|)
  {
    assert (a + b)[|a| - |x|..|a| + |y|] == a[|a| - |x|..] + b[..|y|];
  }

  lemma OccursAtHead(s: string, sub: string, k: int)
    requires OccursAt(s, sub, k) && |sub| > 0
    ensures s[k] == sub[0]
  {
    assert s[k..k + |sub|][0] == s[k];
  }

  lemma DisconnectConnectRefused(n: nat)
    requires n <= 1
    ensures !Contains(VerbsRepeated(n), "disconnectconnect")
  {
    if Contains(VerbsRepeated(n), "disconnectconnect") {
      var k := OccurrenceFromContains(VerbsRepeated(n), "disconnectconnect");
      assert n == 1 && k == 0;
      assert VerbsRepeated(1) == VerbsJoined;
      OccursAtHead(VerbsJoined, "disconnectconnect", 0);
      assert false;
    }
  }

  // ---------------------------------------------------------------------
  // Dispatch

  /** The state Dispatch sees: the two verbs appended to knownActions. */
  function AfterVerbs(s: State): State {
    s.(knownActions := s.knownActions + Verbs)
  }

  lemma StepDispatches(s: State, r: Round, quitSign: string)
    requires r.frame.content != quitSign
    ensures Step(s, r, quitSign) == Dispatch(AfterVerbs(s), Fields(r.frame.content), r)
  {
  }

  /** What Dispatch can rely on in iteration n: the searched string, and the two exact verbs at indices 0 and 1. */
  ghost predicate Appended(t: State, n: nat) {
    && n >= 1 && |t.knownActions| >= 2
    && t.knownActions[0] == "connect" && t.knownActions[1] == "disconnect"
    && Join(t.knownActions, "") == VerbsRepeated(n)
  }

  lemma AfterVerbsAppended(s: State)
    requires KnownActionsShape(s.knownActions)
    ensures Appended(AfterVerbs(s), |s.knownActions| / 2 + 1)
  {
    var ka := s.knownActions + Verbs;
    assert |ka| / 2 == |s.knownActions| / 2 + 1;
    assert KnownActionsShape(ka);
    KnownActionsHead(|ka| / 2);
    JoinedKnownActions(ka);
  }

  lemma DispatchExactVerb(t: State, n: nat, request: seq<string>, r: Round)
    requires Appended(t, n)
    requires |request| >= 2 && (request[0] == "connect" || request[0] == "disconnect")
    ensures var args := ["wg-quick", if request[0] == "connect" then "up" else "down", request[1]];
      Dispatch(t, request, r) == Respond(t.(
        command := Some(Cmd(args, !r.process.StartFailed?)),
        config := request[1],
        status := Execute(r.process),
        launched := t.launched + (if r.process.StartFailed? then [] else [args])))
  {
    ExactVerbsAccepted(n);
  }

  /**
   * "connect <cfg>" and "disconnect <cfg>" build `wg-quick up|down <cfg>`,
   * run it, answer execute's result, and remember the new command and
   * config; extra tokens are ignored.
   */
  lemma ExactVerbRunsWgQuick(s: State, r: Round, quitSign: string, verb: string, cfg: string, extra: seq<string>)
    requires KnownActionsShape(s.knownActions)
    requires r.frame.content != quitSign
    requires verb == "connect" || verb == "disconnect"
    requires Fields(r.frame.content) == [verb, cfg] + extra
    ensures Step(s, r, quitSign).Next?
    ensures var t := Step(s, r, quitSign).state;
      var args := ["wg-quick", if verb == "connect" then "up" else "down", cfg];
      && t.command == Some(Cmd(args, !r.process.StartFailed?))
      && t.config == cfg
      && t.status == Execute(r.process)
      && t.responses == s.responses + [Execute(r.process)]
      && t.launched == s.launched + (if r.process.StartFailed? then [] else [args])
  {
    StepDispatches(s, r, quitSign);
    AfterVerbsAppended(s);
    DispatchExactVerb(AfterVerbs(s), |s.knownActions| / 2 + 1, Fields(r.frame.content), r);
  }

  lemma DispatchNonExactVerb(s: State, request: seq<string>, r: Round)
    requires KnownActionsShape(s.knownActions)
    requires |request| >= 2 && request[0] != "connect" && request[0] != "disconnect"
    requires Contains(VerbsRepeated(|s.knownActions| / 2 + 1), request[0])
    ensures var t := AfterVerbs(s);
      && (t.command.None? ==> Dispatch(t, request, r) == Panic(t.(config := request[1])))
      && (t.command.Some? ==>
        var run := RunCmd(t.command.value, r.process);
        Dispatch(t, request, r) == Respond(t.(
          command := Some(run.cmd), config := request[1], status := run.status,
          launched := t.launched + run.launched)))
  {
    AfterVerbsAppended(s);
  }

  /**
   * A verb that is neither exact name but passes the substring test leaves
   * `command` as the previous iteration set it. When that is still nil, the
   * iteration panics at command.String().
   */
  lemma NonExactVerbWithoutCommandPanics(s: State, r: Round, quitSign: string, action: string, cfg: string, extra: seq<string>)
    requires KnownActionsShape(s.knownActions) && s.command.None?
    requires r.frame.content != quitSign
    requires Fields(r.frame.content) == [action, cfg] + extra
    requires action != "connect" && action != "disconnect"
    requires Contains(VerbsRepeated(|s.knownActions| / 2 + 1), action)
    ensures Step(s, r, quitSign).Panic?
  {
    StepDispatches(s, r, quitSign);
    DispatchNonExactVerb(s, Fields(r.frame.content), r);
  }

  /**
   * Otherwise the old Cmd runs again with its old arguments, although
   * `config` takes the new argument. When that Cmd already started a
   * process, nothing starts and the answer is 0.
   */
  lemma NonExactVerbReusesCommand(s: State, r: Round, quitSign: string, action: string, cfg: string, extra: seq<string>)
    requires KnownActionsShape(s.knownActions) && s.command.Some?
    requires r.frame.content != quitSign
    requires Fields(r.frame.content) == [action, cfg] + extra
    requires action != "connect" && action != "disconnect"
    requires Contains(VerbsRepeated(|s.knownActions| / 2 + 1), action)
    ensures Step(s, r, quitSign).Next?
    ensures var t := Step(s, r, quitSign).state;
      && t.config == cfg
      && t.command.Some? && t.command.value.args == s.command.value.args
      && (s.command.value.started ==> t.status == 0 && t.launched == s.launched && t.command == s.command)
      && (!s.command.value.started ==> t.status == Execute(r.process))
  {
    StepDispatches(s, r, quitSign);
    DispatchNonExactVerb(s, Fields(r.frame.content), r);
  }

  /** On the very first request, "dis <cfg>" passes the check with a nil command, and the handler panics. */
  lemma FirstRequestDisPanics(r: Round, quitSign: string, cfg: string, extra: seq<string>)
    requires r.frame.content != quitSign
    requires Fields(r.frame.content) == ["dis", cfg] + extra
    ensures Step(Initial, r, quitSign).Panic?
  {
    DisAccepted(1);
    StepDispatches(Initial, r, quitSign);
    DispatchNonExactVerb(Initial, Fields(r.frame.content), r);
  }

  lemma DispatchStatus(t: State, n: nat, request: seq<string>, r: Round)
    requires Appended(t, n)
    requires |request| > 0 && request[0] == "status"
    ensures Dispatch(t, request, r) == Respond(t.(status := IsActiveWireGuard(r.probe)))
  {
    StatusNeverAccepted(n);
  }

  /**
   * The verb "status", alone or with more tokens, answers isActiveWireGuard
   * of the probe, whether or not the probe also failed, and starts nothing.
   */
  lemma StatusVerbProbes(s: State, r: Round, quitSign: string)
    requires KnownActionsShape(s.knownActions)
    requires r.frame.content != quitSign
    requires var request := Fields(r.frame.content); |request| > 0 && request[0] == "status"
    ensures Step(s, r, quitSign).Next?
    ensures var t := Step(s, r, quitSign).state;
      && t.status == IsActiveWireGuard(r.probe)
      && t.status == IsActiveWireGuard(r.probe.(failed := !r.probe.failed))
      && t.responses == s.responses + [t.status]
      && t.launched == s.launched && t.command == s.command
  {
    StepDispatches(s, r, quitSign);
    AfterVerbsAppended(s);
    DispatchStatus(AfterVerbs(s), |s.knownActions| / 2 + 1, Fields(r.frame.content), r);
  }

  lemma DispatchOther(t: State, n: nat, request: seq<string>, r: Round)
    requires Appended(t, n)
    requires |request| > 0 && request[0] != "status"
    requires |request| == 1 || !Contains(VerbsRepeated(n), request[0])
    ensures Dispatch(t, request, r) == Respond(t.(status := -1))
  {
  }

  /**
   * Any other request answers -1 and starts no process: a verb that fails the
   * substring test, or a lone verb, "connect" and "disconnect" included.
   */
  lemma OtherRequestAnswersError(s: State, r: Round, quitSign: string)
    requires KnownActionsShape(s.knownActions)
    requires r.frame.content != quitSign
    requires var request := Fields(r.frame.content);
      && |request| > 0 && request[0] != "status"
      && (|request| == 1 || !Contains(VerbsRepeated(|s.knownActions| / 2 + 1), request[0]))
    ensures Step(s, r, quitSign).Next?
    ensures var t := Step(s, r, quitSign).state;
      && t.status == -1 && t.responses == s.responses + [-1]
      && t.launched == s.launched && t.command == s.command && t.config == s.config
  {
    StepDispatches(s, r, quitSign);
    AfterVerbsAppended(s);
    DispatchOther(AfterVerbs(s), |s.knownActions| / 2 + 1, Fields(r.frame.content), r);
  }

  /** An empty or all-blank frame panics at request[0]. */
  lemma BlankFramePanics(s: State, r: Round, quitSign: string)
    requires r.frame.content != quitSign
    requires AllSpace(r.frame.content)
    ensures Step(s, r, quitSign).Panic?
  {
    FieldsEmptyIff(r.frame.content);
  }

  // ---------------------------------------------------------------------
  // Only well-formed wg-quick invocations are ever started

  /** `wg-quick up|down <cfg>` with a non-empty, blank-free configuration name. */
  predicate WgQuickArgs(args: seq<string>) {
    |args| == 3 && args[0] == "wg-quick" && (args[1] == "up" || args[1] == "down") && IsWord(args[2])
  }

  ghost predicate Launches(s: State) {
    && KnownActionsShape(s.knownActions)
    && (s.command.Some? ==> WgQuickArgs(s.command.value.args))
    && (forall i :: 0 <= i < |s.launched| ==> WgQuickArgs(s.launched[i]))
  }

  /** Every command held or started is `wg-quick up|down <cfg>` with a non-empty cfg. */
  lemma StepKeepsLaunches(s: State, r: Round, quitSign: string)
    requires Launches(s)
    ensures Launches(Step(s, r, quitSign).state)
  {
    StepKeepsKnownActions(s, r, quitSign);
    if r.frame.content != quitSign {
      StepDispatches(s, r, quitSign);
      DispatchKeepsLaunches(AfterVerbs(s), Fields(r.frame.content), r);
    }
  }

  lemma DispatchKeepsLaunches(t: State, request: seq<string>, r: Round)
    requires |t.knownActions| >= 2
    requires forall i :: 0 <= i < |request| ==> IsWord(request[i])
    requires t.command.Some? ==> WgQuickArgs(t.command.value.args)
    requires forall i :: 0 <= i < |t.launched| ==> WgQuickArgs(t.launched[i])
    ensures var u := Dispatch(t, request, r).state;
      && u.knownActions == t.knownActions
      && (u.command.Some? ==> WgQuickArgs(u.command.value.args))
      && (forall i :: 0 <= i < |u.launched| ==> WgQuickArgs(u.launched[i]))
  {
    if |request| > 1 {
      assert IsWord(request[1]);
    }
  }

  lemma {:induction false} ServeKeepsLaunches(s: State, rounds: seq<Round>, quitSign: string)
    requires Launches(s)
    ensures Launches(Serve(s, rounds, quitSign).state)
    decreases |rounds|
  {
    if rounds != [] {
      StepKeepsLaunches(s, rounds[0], quitSign);
      match Step(s, rounds[0], quitSign)
      case Quit(t) =>
      case Panic(t) =>
      case Next(t) => ServeKeepsLaunches(t, rounds[1..], quitSign);
    }
  }

  /** From a fresh connection, no process is ever started without a configuration name. */
  lemma NoLaunchWithoutConfig(rounds: seq<Round>, quitSign: string)
    ensures var launched := Serve(Initial, rounds, quitSign).state.launched;
      forall i :: 0 <= i < |launched| ==> WgQuickArgs(launched[i])
  {
    ServeKeepsLaunches(Initial, rounds, quitSign);
  }

  // ---------------------------------------------------------------------
  // The handler

  /** One accepted connection being served by handleRequest. */
  class Handler {
    const quitSign: string
    var knownActions: seq<string>
    var command: Option<Cmd>
    var config: string
    var status: int
    var responses: seq<int>
    var launched: seq<seq<string>>
    var closed: bool

    function Snapshot(): State
      reads this
    {
      State(knownActions, command, config, status, responses, launched)
    }

    constructor (quitSign: string)
      ensures this.quitSign == quitSign
      ensures Snapshot() == Initial && !closed
    {
      this.quitSign := quitSign;
      knownActions, command, config, status := [], None, "", 0;
      responses, launched := [], [];
      closed := false;
    }

    /**
     * handleRequest over the rounds the connection delivers. The connection
     * is closed by the deferred Close when the loop breaks on the quit
     * sentinel, and also when the goroutine panics.
     */
    method HandleRequest(rounds: seq<Round>) returns (ending: Ending)
      requires !closed
      modifies this
      ensures ending == Serve(old(Snapshot()), rounds, quitSign)
      ensures Snapshot() == ending.state
      ensures closed <==> ending.how != AwaitingInput
    {
      var i := 0;
      while i < |rounds|
        invariant 0 <= i <= |rounds| && !closed
        invariant var e := Serve(Snapshot(), rounds[i..], quitSign);
          Serve(old(Snapshot()), rounds, quitSign) == e.(served := e.served + i)
      {
        ghost var before := Snapshot();
        assert rounds[i..][1..] == rounds[i + 1..];
        var round := rounds[i];
        if round.frame.content == quitSign {
          closed := true;
          return Ending(Disconnected, Snapshot(), i);
        }
        StepDispatches(before, round, quitSign);
        knownActions := knownActions + ["connect", "disconnect"];
        var request := Fields(round.frame.content);
        var panicked := Answer(request, round);
        if panicked {
          closed := true;
          return Ending(Crashed, Snapshot(), i);
        }
        i := i + 1;
      }
      ending := Ending(AwaitingInput, Snapshot(), i);
    }

    /** The body of the loop after the tokens were read: dispatch, run, and write the status back. */
    method Answer(request: seq<string>, round: Round) returns (panicked: bool)
      requires |knownActions| >= 2
      modifies this
      ensures var r := Dispatch(old(Snapshot()), request, round);
        && panicked == r.Panic? && r.Next? == !panicked && Snapshot() == r.state
      ensures closed == old(closed)
    {
      if |request| == 0 {
        return true;
      }
      panicked := false;
      var action := request[0];
      if |request| > 1 && Contains(Join(knownActions, ""), action) {
        panicked := RunAccepted(action, request[1], round.process);
        if panicked {
          return;
        }
      } else if action == "status" {
        status := IsActiveWireGuard(round.probe);
      } else {
        status := -1;
      }
      responses := responses + [status];
    }

    /** An accepted verb: pick the command, run it, and record the status (the response is written by the caller). */
    method RunAccepted(action: string, cfg: string, o: ProcessOutcome) returns (panicked: bool)
      requires |knownActions| >= 2
      modifies this
      ensures var r := RunVerb(old(Snapshot()), action, cfg, o);
        && panicked == r.Panic?
        && (r.Panic? ==> Snapshot() == r.state)
        && (r.Next? ==> Snapshot().(responses := Snapshot().responses + [status]) == r.state)
        && responses == old(responses)
      ensures closed == old(closed)
    {
      config := cfg;
      if action == knownActions[0] {
        command := Some(WgQuick("up", config));
      } else if action == knownActions[1] {
        command := Some(WgQuick("down", config));
      }
      if command.None? {
        return true;
      }
      var run := RunCmd(command.value, o);
      status := run.status;
      command := Some(run.cmd);
      launched := launched + run.launched;
      panicked := false;
    }
  }
}
