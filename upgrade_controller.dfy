/** The single-flight upgrade trigger and the upgrade sequence of
    lib/updater/updater.py: the /api/upgrade handler `upgrade`,
    Updater.upgrade_app and Updater.restart_app, over the module globals
    IS_UPGRADING and STATUS, cabernet.STATUS and the scheduler queue.

    The upgrade thread is modelled sequentially: the handler records that it
    launched the thread, and the thread's body is the separate call
    UpgradeApp. The text CabernetUpgrade adds to cabernet.STATUS and whether
    its upgrade succeeded are parameters of that call. */
module UpgradeController {
  import opened Common

  const FailedMarker: string := "<script type=\"text/javascript\">upgrading = \"failed\"</script>"
  const PluginsLine: string := "(TBD) Upgrading plugins...<br>\r\n"
  const Countdown3: string := "Restarting app in 3...<br>\r\n"
  const Countdown2: string := "2...<br>\r\n"
  const Countdown1: string := "1...<br>\r\n"
  const SuccessMarker: string := "<script type=\"text/javascript\">upgrading = \"success\"</script>"

  /** {'cmd': 'runtask', 'taskid': id}, the message put on the scheduler queue. */
  datatype SchedMsg = RunTask(taskId: string)

  /** The observable steps of the handler and the upgrade thread, in order. */
  datatype Effect =
    | FlagSet               // IS_UPGRADING = True
    | BuffersCleared        // STATUS = '' and cabernet.STATUS = ''
    | Launched              // the upgrade thread is started
    | Appended(text: string)  // STATUS += text
    | FlagCleared           // IS_UPGRADING = False
    | Enqueued(msg: SchedMsg) // sched_queue.put(msg)

  datatype Body = HtmlError(message: string) | StatusPage(text: string)

  datatype Reply = Reply(code: nat, body: Body)

  /** The module globals, the scheduler queue, and the effects so far. */
  datatype Globals = Globals(
    upgrading: bool,
    status: string,
    appStatus: string,
    schedQueue: seq<SchedMsg>,
    effects: seq<Effect>)

  /** The globals at process start. */
  function Initial(): Globals {
    Globals(false, "", "", [], [])
  }


  /** The query names this application. */
  predicate ValidId(namespace: string, query: map<string, string>) {
    "id" in query && query["id"] == namespace
  }

  /** The effects of a launch: raise the flag, clear both buffers, start the thread. */
  const LaunchEffects: seq<Effect> := [FlagSet, BuffersCleared, Launched]

  /** The /api/upgrade handler: the globals after the request, and the reply. */
  function HandleUpgrade(g: Globals, namespace: string, query: map<string, string>): (r: (Globals, Reply))
    ensures "id" !in query ==> r == (g, Reply(501, HtmlError("404 - Unknown action")))
    ensures "id" in query && query["id"] != namespace ==> r == (g, Reply(501, HtmlError("501 - Invalid ID")))
    ensures ValidId(namespace, query) && g.upgrading ==> r == (g, Reply(200, StatusPage(g.appStatus + g.status)))
    ensures ValidId(namespace, query) && !g.upgrading ==>
              && r.0.upgrading && r.0.status == "" && r.0.appStatus == ""
              && r.0.schedQueue == g.schedQueue
              && Launches(r.0.effects) == Launches(g.effects) + 1
              && r.1 == Reply(200, StatusPage(""))
  {
    if "id" !in query then
      (g, Reply(501, HtmlError("404 - Unknown action")))
    else if query["id"] != namespace then
      (g, Reply(501, HtmlError("501 - Invalid ID")))
    else if g.upgrading then
      (g, Reply(200, StatusPage(g.appStatus + g.status)))
    else
      var g' := g.(upgrading := true, status := "", appStatus := "", effects := g.effects + LaunchEffects);
      LaunchCounted(g.effects);
      assert g'.appStatus + g'.status == "";
      (g', Reply(200, StatusPage(g'.appStatus + g'.status)))
  }

  /** restart_app: look up the restart task and enqueue a run of it;
      get_tasks(...)[0] raises IndexError when there is no such task. */
  function Restart(g: Globals, restartTasks: seq<string>): (r: (Globals, Result<()>))
    ensures restartTasks == [] ==> r == (g, Raised(IndexError))
    ensures restartTasks != [] ==>
              && r.1 == Ok(())
              && r.0.schedQueue == g.schedQueue + [RunTask(restartTasks[0])]
              && r.0.effects == g.effects + [Enqueued(RunTask(restartTasks[0]))]
              && r.0.upgrading == g.upgrading && r.0.status == g.status && r.0.appStatus == g.appStatus
  {
    if restartTasks == [] then (g, Raised(IndexError))
    else
      var msg := RunTask(restartTasks[0]);
      (g.(schedQueue := g.schedQueue + [msg], effects := g.effects + [Enqueued(msg)]), Ok(()))
  }

  /** The effects of a failed upgrade. */
  const FailureEffects: seq<Effect> := [Appended(FailedMarker), FlagCleared]

  /** The effects of a successful upgrade before the restart. */
  const SuccessEffects: seq<Effect> :=
    [Appended(PluginsLine), Appended(Countdown3), Appended(Countdown2), Appended(Countdown1),
     Appended(SuccessMarker), FlagCleared]

  /** The text a successful upgrade appends to STATUS. */
  const SuccessText: string := PluginsLine + Countdown3 + Countdown2 + Countdown1 + SuccessMarker

  /** upgrade_app, the body of the upgrade thread; appOutput is what
      CabernetUpgrade adds to cabernet.STATUS, appUpgraded what it returns. */
  function RunUpgrade(g: Globals, appUpgraded: bool, appOutput: string, restartTasks: seq<string>): (r: (Globals, Result<()>))
    ensures !r.0.upgrading
    ensures r.0.appStatus == g.appStatus + appOutput
  {
    var g0 := g.(appStatus := g.appStatus + appOutput);
    if !appUpgraded then
      (g0.(status := g0.status + FailedMarker, upgrading := false, effects := g0.effects + FailureEffects), Ok(()))
    else
      Restart(g0.(status := g0.status + SuccessText, upgrading := false, effects := g0.effects + SuccessEffects),
              restartTasks)
  }

  /** A failed upgrade appends the failure marker, lowers the flag and
      never restarts the application. */
  lemma FailedUpgradeNeverRestarts(g: Globals, appOutput: string, restartTasks: seq<string>)
    ensures var r := RunUpgrade(g, false, appOutput, restartTasks);
            && r.0.status == g.status + FailedMarker
            && r.0.schedQueue == g.schedQueue
            && r.1 == Ok(())
            && forall k :: |g.effects| <= k < |r.0.effects| ==> !r.0.effects[k].Enqueued?
  {
  }

  /** A successful upgrade appends the plugin line, the countdown and the
      success marker, lowers the flag, and only then enqueues the restart
      task; with no restart task it raises IndexError after lowering the flag. */
  lemma SucceededUpgradeRestarts(g: Globals, appOutput: string, restartTasks: seq<string>)
    ensures var r := RunUpgrade(g, true, appOutput, restartTasks);
            && r.0.status == g.status + SuccessText
            && (restartTasks != [] ==>
                  && r.0.schedQueue == g.schedQueue + [RunTask(restartTasks[0])]
                  && r.0.effects[|r.0.effects| - 2..] == [FlagCleared, Enqueued(RunTask(restartTasks[0]))]
                  && r.1 == Ok(()))
            && (restartTasks == [] ==> r.0.schedQueue == g.schedQueue && r.1 == Raised(IndexError))
  {
    var g1 := g.(appStatus := g.appStatus + appOutput, status := g.status + SuccessText, upgrading := false,
                 effects := g.effects + SuccessEffects);
    if restartTasks != [] {
      var es := g1.effects + [Enqueued(RunTask(restartTasks[0]))];
      assert es[|es| - 2..] == [SuccessEffects[5], Enqueued(RunTask(restartTasks[0]))];
    }
  }

  /** How many upgrade threads have been launched. */
  function Launches(effects: seq<Effect>): nat {
    if effects == [] then 0
    else Launches(effects[..|effects| - 1]) + (if effects[|effects| - 1] == Launched then 1 else 0)
  }

  lemma LaunchCounted(es: seq<Effect>)
    ensures Launches(es + LaunchEffects) == Launches(es) + 1
  {
    LastStep(es, FlagSet);
    LastStep(es + [FlagSet], BuffersCleared);
    LastStep(es + [FlagSet] + [BuffersCleared], Launched);
    assert es + LaunchEffects == es + [FlagSet] + [BuffersCleared] + [Launched];
  }

  /** Each trace function, one effect further. */
  lemma LastStep(es: seq<Effect>, e: Effect)
    ensures Launches(es + [e]) == Launches(es) + (if e == Launched then 1 else 0)
    ensures StatusSinceClear(es + [e]) == StatusStep(StatusSinceClear(es), e)
    ensures FlagSince(es + [e]) == FlagStep(FlagSince(es), e)
    ensures AppendedText(es + [e]) == AppendedText(es) + TextOf(e)
  {
    assert (es + [e])[..|es + [e]| - 1] == es;
  }

  /** The requests of a run in which the upgrade thread does not get to run. */
  function HandleAll(g: Globals, namespace: string, queries: seq<map<string, string>>): Globals
    decreases |queries|
  {
    if queries == [] then g
    else HandleAll(HandleUpgrade(g, namespace, queries[0]).0, namespace, queries[1..])
  }

  /** Single flight: however many requests arrive before the upgrade thread
      finishes, at most one thread is launched, and one is launched exactly
      when the flag was down and some request carried the right id. While an
      upgrade is running, no request changes anything. */
  lemma {:induction false} SingleFlight(g: Globals, namespace: string, queries: seq<map<string, string>>)
    ensures g.upgrading ==> HandleAll(g, namespace, queries) == g
    ensures Launches(HandleAll(g, namespace, queries).effects) ==
              Launches(g.effects) +
              (if !g.upgrading && exists i :: 0 <= i < |queries| && ValidId(namespace, queries[i]) then 1 else 0)
    decreases |queries|
  {
    if queries != [] {
      var g1 := HandleUpgrade(g, namespace, queries[0]).0;
      SingleFlight(g1, namespace, queries[1..]);
      if !g.upgrading && !ValidId(namespace, queries[0]) {
        if exists i :: 0 <= i < |queries| && ValidId(namespace, queries[i]) {
          var i :| 0 <= i < |queries| && ValidId(namespace, queries[i]);
          assert ValidId(namespace, queries[1..][i - 1]);
        }
      }
    }
  }

  /** STATUS as the effects say it should be: what was appended since the
      last clear. */
  function StatusSinceClear(effects: seq<Effect>): string {
    if effects == [] then ""
    else StatusStep(StatusSinceClear(effects[..|effects| - 1]), effects[|effects| - 1])
  }

  /** STATUS after one effect. */
  function StatusStep(before: string, e: Effect): string {
    match e
    case BuffersCleared => ""
    case Appended(t) => before + t
    case _ => before
  }

  /** The text an effect appends to STATUS. */
  function TextOf(e: Effect): string {
    if e.Appended? then e.text else ""
  }

  /** IS_UPGRADING as the effects say it should be: the last flag change. */
  function FlagSince(effects: seq<Effect>): bool {
    if effects == [] then false
    else FlagStep(FlagSince(effects[..|effects| - 1]), effects[|effects| - 1])
  }

  /** IS_UPGRADING after one effect. */
  function FlagStep(before: bool, e: Effect): bool {
    match e
    case FlagSet => true
    case FlagCleared => false
    case _ => before
  }

  /** The globals agree with the effects that produced them. */
  predicate Consistent(g: Globals) {
    g.status == StatusSinceClear(g.effects) && g.upgrading == FlagSince(g.effects)
  }

  /** Appending a clear-free run of effects appends exactly their texts. */
  lemma {:induction false} StatusAfterAppends(a: seq<Effect>, b: seq<Effect>)
    requires forall k :: 0 <= k < |b| ==> b[k] != BuffersCleared
    ensures StatusSinceClear(a + b) == StatusSinceClear(a) + AppendedText(b)
    decreases |b|
  {
    if b == [] {
      assert a + b == a;
    } else {
      var b' := b[..|b| - 1];
      assert (a + b)[..|a + b| - 1] == a + b';
      assert (a + b)[|a + b| - 1] == b[|b| - 1];
      StatusAfterAppends(a, b');
    }
  }

  function AppendedText(effects: seq<Effect>): string {
    if effects == [] then ""
    else
      AppendedText(effects[..|effects| - 1]) + TextOf(effects[|effects| - 1])
  }

  /** The text of a run of five appends followed by a non-append. */
  lemma FiveAppends(a: string, b: string, c: string, d: string, e: string, last: Effect)
    requires !last.Appended?
    ensures AppendedText([Appended(a), Appended(b), Appended(c), Appended(d), Appended(e), last]) == a + b + c + d + e
  {
    var s0: seq<Effect> := [];
    LastStep(s0, Appended(a));
    LastStep(s0 + [Appended(a)], Appended(b));
    LastStep(s0 + [Appended(a)] + [Appended(b)], Appended(c));
    LastStep(s0 + [Appended(a)] + [Appended(b)] + [Appended(c)], Appended(d));
    LastStep(s0 + [Appended(a)] + [Appended(b)] + [Appended(c)] + [Appended(d)], Appended(e));
    LastStep(s0 + [Appended(a)] + [Appended(b)] + [Appended(c)] + [Appended(d)] + [Appended(e)], last);
    assert [Appended(a), Appended(b), Appended(c), Appended(d), Appended(e), last] ==
           s0 + [Appended(a)] + [Appended(b)] + [Appended(c)] + [Appended(d)] + [Appended(e)] + [last];
  }

  /** The flag after a run ending in FlagCleared followed by non-flag effects. */
  lemma {:induction false} FlagAfterClear(a: seq<Effect>, tail: seq<Effect>)
    requires forall k :: 0 <= k < |tail| ==> tail[k].Enqueued?
    ensures !FlagSince(a + [FlagCleared] + tail)
    decreases |tail|
  {
    if tail == [] {
      LastStep(a, FlagCleared);
      assert a + [FlagCleared] + tail == a + [FlagCleared];
    } else {
      var t' := tail[..|tail| - 1];
      FlagAfterClear(a, t');
      LastStep(a + [FlagCleared] + t', tail[|tail| - 1]);
      assert a + [FlagCleared] + tail == a + [FlagCleared] + t' + [tail[|tail| - 1]];
    }
  }

  /** The handler keeps the globals in step with the effects: a launch
      clears STATUS and raises the flag, and nothing else touches them. */
  lemma HandleUpgradeConsistent(g: Globals, namespace: string, query: map<string, string>)
    requires Consistent(g)
    ensures Consistent(HandleUpgrade(g, namespace, query).0)
  {
    if ValidId(namespace, query) && !g.upgrading {
      var es := g.effects;
      LastStep(es, FlagSet);
      LastStep(es + [FlagSet], BuffersCleared);
      LastStep(es + [FlagSet] + [BuffersCleared], Launched);
      assert es + LaunchEffects == es + [FlagSet] + [BuffersCleared] + [Launched];
    }
  }

  /** The upgrade thread only appends to STATUS, in order, and always lowers
      the flag: STATUS stays exactly the text appended since the last launch. */
  lemma RunUpgradeConsistent(g: Globals, appUpgraded: bool, appOutput: string, restartTasks: seq<string>)
    requires Consistent(g)
    ensures Consistent(RunUpgrade(g, appUpgraded, appOutput, restartTasks).0)
  {
    var r := RunUpgrade(g, appUpgraded, appOutput, restartTasks).0;
    if !appUpgraded {
      var es := g.effects;
      LastStep(es, Appended(FailedMarker));
      LastStep(es + [Appended(FailedMarker)], FlagCleared);
      assert es + FailureEffects == es + [Appended(FailedMarker)] + [FlagCleared];
    } else {
      FiveAppends(PluginsLine, Countdown3, Countdown2, Countdown1, SuccessMarker, FlagCleared);
      StatusAfterAppends(g.effects, SuccessEffects);
      var pre := g.effects + SuccessEffects[..5];
      assert g.effects + SuccessEffects == pre + [FlagCleared];
      if restartTasks != [] {
        var es := g.effects + SuccessEffects + [Enqueued(RunTask(restartTasks[0]))];
        assert es[..|es| - 1] == g.effects + SuccessEffects;
        FlagAfterClear(pre, [Enqueued(RunTask(restartTasks[0]))]);
        assert es == pre + [FlagCleared] + [Enqueued(RunTask(restartTasks[0]))];
      } else {
        FlagAfterClear(pre, []);
        assert pre + [FlagCleared] == pre + [FlagCleared] + [];
      }
    }
  }

  /** A finished attempt, failed or not, never blocks the next one: the next
      request with the right id launches a new upgrade with an empty STATUS. */
  lemma RetriggerAfterFinish(g: Globals, appUpgraded: bool, appOutput: string, restartTasks: seq<string>,
                             namespace: string, query: map<string, string>)
    requires ValidId(namespace, query)
    ensures var done := RunUpgrade(g, appUpgraded, appOutput, restartTasks).0;
            var next := HandleUpgrade(done, namespace, query).0;
            && next.upgrading && next.status == "" && next.appStatus == ""
            && Launches(next.effects) == Launches(done.effects) + 1
  {
  }

  /** The module globals of updater.py, as one object. */
  class UpgradeGlobals {
    const namespace: string
    var isUpgrading: bool
    var status: string
    var appStatus: string
    var schedQueue: seq<SchedMsg>
    ghost var effects: seq<Effect>

    ghost function State(): Globals
      reads this
    {
      Globals(isUpgrading, status, appStatus, schedQueue, effects)
    }

    constructor (namespace: string)
      ensures this.namespace == namespace && State() == Initial()
    {
      this.namespace := namespace;
      isUpgrading := false;
      status := "";
      appStatus := "";
      schedQueue := [];
      effects := [];
    }

    /** GET /api/upgrade?id=... */
    method Upgrade(query: map<string, string>) returns (reply: Reply)
      modifies this
      ensures (State(), reply) == HandleUpgrade(old(State()), namespace, query)
    {
      if "id" in query {
        if query["id"] != namespace {
          return Reply(501, HtmlError("501 - Invalid ID"));
        }
        if !isUpgrading {
          isUpgrading := true;
          status := "";
          appStatus := "";
          effects := effects + LaunchEffects;
        }
        return Reply(200, StatusPage(appStatus + status));
      } else {
        return Reply(501, HtmlError("404 - Unknown action"));
      }
    }

    /** Updater.upgrade_app: the upgrade thread's body. */
    method UpgradeApp(appUpgraded: bool, appOutput: string, restartTasks: seq<string>) returns (outcome: Result<()>)
      modifies this
      ensures (State(), outcome) == RunUpgrade(old(State()), appUpgraded, appOutput, restartTasks)
    {
      appStatus := appStatus + appOutput;
      if !appUpgraded {
        status := status + FailedMarker;
        isUpgrading := false;
        effects := effects + FailureEffects;
        return Ok(());
      }
      ghost var before := status;
      status := status + PluginsLine;
      status := status + Countdown3;
      status := status + Countdown2;
      status := status + Countdown1;
      status := status + SuccessMarker;
      isUpgrading := false;
      effects := effects + SuccessEffects;
      assert status == before + SuccessText by {
        AppendFive(before, PluginsLine, Countdown3, Countdown2, Countdown1, SuccessMarker);
      }
      outcome := RestartApp(restartTasks);
    }

    /** Updater.restart_app. */
    method RestartApp(restartTasks: seq<string>) returns (outcome: Result<()>)
      modifies this
      ensures (State(), outcome) == Restart(old(State()), restartTasks)
    {
      if restartTasks == [] {
        return Raised(IndexError);
      }
      var msg := RunTask(restartTasks[0]);
      schedQueue := schedQueue + [msg];
      effects := effects + [Enqueued(msg)];
      return Ok(());
    }
  }

  /** Five appends in a row append their concatenation. */
  lemma AppendFive(s: string, a: string, b: string, c: string, d: string, e: string)
    ensures s + a + b + c + d + e == s + (a + b + c + d + e)
  {
  }
}
