/** labagent/supervisor/supervisor.go: at most one app, and no replacement under its feet.

    Processes, downloads and files are the outside world; what they do is a parameter.  A
    started app may end by itself whenever the lock is free. */
module AppSupervisor {
  import opened Results

  datatype Fault = NotStarted | BadExit | DownloadFailed | ClearFailed | LaunchFailed | VersionFailed | RunFailed

  /** How an app that ends is seen to have ended. */
  datatype Exit = Clean | Killed | Other

  /** A command: the context that can cancel it, and its process if it was started. */
  datatype Command = Command(context: nat, pid: Option<nat>)

  /** What the outside world does during one call. */
  datatype World = World(exit: Exit, downloads: bool, clears: bool, launches: bool, versionRuns: bool, runsWell: bool)

  /** What the supervisor does to the outside world, with the apps alive at that moment. */
  datatype Act = Launched(pid: nat, live: set<nat>) | Stopped(pid: nat) | Replaced(link: string, live: set<nat>) | Cleared(live: set<nat>)

  /** Nothing is replaced or cleared while an app lives, and apps are launched one at a
      time. */
  ghost predicate Careful(acts: seq<Act>) {
    forall i :: 0 <= i < |acts| ==>
      match acts[i]
      case Launched(pid, live) => live == {}
      case Stopped(_) => true
      case Replaced(_, live) => live == {}
      case Cleared(live) => live == {}
  }

  /** What killing does: a command that was started is stopped. */
  function KillActs(cancel: Option<nat>, app: Option<Command>): seq<Act> {
    if cancel.Some? && app.Some? && app.value.pid.Some? then [Stopped(app.value.pid.value)] else []
  }

  /** Replacing the binary, clearing the app's root and starting the app, in this order. */
  function ReplaceActs(link: string, pid: nat): seq<Act> {
    [Replaced(link, {}), Cleared({}), Launched(pid, {})]
  }

  /** Running the app to its end. */
  function RunActs(pid: nat): seq<Act> {
    [Launched(pid, {}), Stopped(pid)]
  }

  class Supervisor {
    var app: Option<Command>
    /** The context that `cancel` cancels. */
    var cancel: Option<nat>
    /** The app processes that are running. */
    var live: set<nat>
    /** The link the binary was made from. */
    var binary: Option<string>
    var nextPid: nat
    var nextContext: nat
    ghost var acts: seq<Act>

    /** Whenever the lock is free: a running app is the one that `app` and `cancel` name. */
    ghost predicate Valid()
      reads this
    {
      && (cancel.Some? ==> app.Some? && app.value.context == cancel.value)
      && (forall pid :: pid in live ==> cancel.Some? && app.Some? && app.value.pid == Some(pid))
      && (forall pid :: pid in live ==> pid < nextPid)
      && Careful(acts)
    }

    constructor ()
      ensures Valid() && live == {} && app == None && cancel == None && binary == None
    {
      app, cancel, live, binary, nextPid, nextContext, acts := None, None, {}, None, 0, 0, [];
    }

    /** At most one app runs. */
    lemma AtMostOne(a: nat, b: nat)
      requires Valid() && a in live && b in live
      ensures a == b && live == {a}
    {
    }

    /** A running app ends by itself. */
    method EndByItself(pid: nat)
      requires Valid() && pid in live
      modifies this
      ensures Valid() && live == {} && app == old(app) && cancel == old(cancel) && binary == old(binary)
    {
      AtMostOne(pid, pid);
      live := live - {pid};
    }

    /** `kill`: forgets the app after it is gone, whatever the outcome. */
    method Kill(exit: Exit) returns (err: Option<Fault>)
      requires Valid()
      modifies this
      ensures Valid() && live == {} && app == None && cancel == None && binary == old(binary) && nextPid == old(nextPid)
      ensures acts == old(acts) + KillActs(old(cancel), old(app))
      ensures old(cancel) == None ==> err == None
      ensures old(cancel) != None && old(app).value.pid == None ==> err == Some(NotStarted)
      ensures old(cancel) != None && old(app).value.pid != None ==> err == if exit == Other then Some(BadExit) else None
    {
      if cancel.None? {
        app := None;
        return None;
      }
      var command := app.value;
      if command.pid.None? {
        cancel, app := None, None;
        return Some(NotStarted);
      }
      // The context is cancelled, which kills the process, and the process is awaited.
      if command.context == cancel.value {
        live := live - {command.pid.value};
        acts := acts + [Stopped(command.pid.value)];
      }
      cancel, app := None, None;
      return if exit == Other then Some(BadExit) else None;
    }

    method ReplaceBinary(link: string, downloads: bool) returns (err: Option<Fault>)
      requires Valid() && live == {}
      modifies `binary, `acts
      ensures Valid() && binary == if downloads then Some(link) else old(binary)
      ensures acts == if downloads then old(acts) + [Replaced(link, {})] else old(acts)
      ensures err == if downloads then None else Some(DownloadFailed)
    {
      if !downloads {
        return Some(DownloadFailed);
      }
      acts := acts + [Replaced(link, live)];
      binary := Some(link);
      return None;
    }

    method Clear(clears: bool) returns (err: Option<Fault>)
      requires Valid() && live == {}
      modifies `acts
      ensures Valid() && err == if clears then None else Some(ClearFailed)
      ensures acts == old(acts) + [Cleared({})]
    {
      acts := acts + [Cleared(live)];
      return if clears then None else Some(ClearFailed);
    }

    /** `start`: an app that keeps running. */
    method Start(launches: bool, versionRuns: bool) returns (err: Option<Fault>)
      requires Valid() && live == {} && cancel == None
      modifies this
      ensures Valid() && binary == old(binary) && cancel.Some? && app.Some?
      ensures live == if launches then {old(nextPid)} else {}
      ensures app.value.pid == if launches then Some(old(nextPid)) else None
      ensures err == if !launches then Some(LaunchFailed) else if versionRuns then None else Some(VersionFailed)
      ensures acts == if launches then old(acts) + [Launched(old(nextPid), {})] else old(acts)
    {
      var context := nextContext;
      nextContext := nextContext + 1;
      cancel := Some(context);
      app := Some(Command(context, None));
      if !launches {
        return Some(LaunchFailed);
      }
      var pid := nextPid;
      nextPid := nextPid + 1;
      acts := acts + [Launched(pid, live)];
      app := Some(Command(context, Some(pid)));
      live := live + {pid};
      return if versionRuns then None else Some(VersionFailed);
    }

    /** `wait`: runs the app to its end under the lock. */
    method Wait(launches: bool, runsWell: bool) returns (err: Option<Fault>)
      requires Valid() && live == {} && cancel == None
      modifies this
      ensures Valid() && live == {} && cancel == None && binary == old(binary)
      ensures err == if !launches then Some(LaunchFailed) else if runsWell then None else Some(RunFailed)
      ensures acts == if launches then old(acts) + [Launched(old(nextPid), {}), Stopped(old(nextPid))] else old(acts)
    {
      var context := nextContext;
      nextContext := nextContext + 1;
      app := Some(Command(context, None));
      if !launches {
        return Some(LaunchFailed);
      }
      var pid := nextPid;
      nextPid := nextPid + 1;
      acts := acts + [Launched(pid, live)];
      live := live + {pid};
      app := Some(Command(context, Some(pid)));
      live := live - {pid};
      acts := acts + [Stopped(pid)];
      return if runsWell then None else Some(RunFailed);
    }

    /** With a link: replaces the binary, clears the app's root and starts the app.  Without:
        runs the app to its end.  For every outcome: when it comes about, and what is left. */
    method Supervise(link: string, w: World) returns (err: Option<Fault>)
      requires Valid()
      modifies this
      ensures Valid()
      ensures err == Some(NotStarted) <==> StaleAfterFailedStart(old(cancel), old(app))
      ensures err == Some(BadExit) <==> NamesProcess(old(cancel), old(app)) && w.exit == Other
      ensures err == Some(DownloadFailed) <==> KillsWell(old(cancel), old(app), w.exit) && link != "" && !w.downloads
      ensures err == Some(ClearFailed) <==> KillsWell(old(cancel), old(app), w.exit) && link != "" && w.downloads && !w.clears
      ensures err == Some(LaunchFailed) <==>
        KillsWell(old(cancel), old(app), w.exit) && (link != "" ==> w.downloads && w.clears) && !w.launches
      ensures err == Some(VersionFailed) <==>
        KillsWell(old(cancel), old(app), w.exit) && link != "" && w.downloads && w.clears && w.launches && !w.versionRuns
      ensures err == Some(RunFailed) <==> KillsWell(old(cancel), old(app), w.exit) && link == "" && w.launches && !w.runsWell
      ensures err == None <==> KillsWell(old(cancel), old(app), w.exit) && AllGoes(link, w)
      ensures StaleAfterFailedStart(cancel, app) <==> err == Some(LaunchFailed) && link != ""
      // Nothing was begun: nothing lives, nothing is named, the binary is as it was.
      ensures err == Some(NotStarted) || err == Some(BadExit) || err == Some(DownloadFailed) ==>
        live == {} && cancel == None && app == None && binary == old(binary) && acts == old(acts) + KillActs(old(cancel), old(app))
      // Replaced and cleared, but not launched.
      ensures err == Some(ClearFailed) ==> live == {} && cancel == None && app == None
      ensures err == Some(LaunchFailed) && link != "" ==> live == {}
      ensures err == Some(ClearFailed) || (err == Some(LaunchFailed) && link != "") ==>
        binary == Some(link) && acts == old(acts) + KillActs(old(cancel), old(app)) + [Replaced(link, {}), Cleared({})]
      // Launched: the app lives and is named, whether or not it told its version.
      ensures (err == None || err == Some(VersionFailed)) && link != "" ==>
        live == {old(nextPid)} && cancel.Some? && app.Some? && app.value.pid == Some(old(nextPid)) && binary == Some(link) &&
        acts == old(acts) + KillActs(old(cancel), old(app)) + ReplaceActs(link, old(nextPid))
      // Run to its end, or not launched for that.
      ensures link == "" && KillsWell(old(cancel), old(app), w.exit) ==> live == {} && cancel == None && binary == old(binary)
      ensures link == "" && KillsWell(old(cancel), old(app), w.exit) ==>
        acts == old(acts) + KillActs(old(cancel), old(app)) + (if w.launches then RunActs(old(nextPid)) else [])
    {
      err := Kill(w.exit);
      if err.Some? {
        return;
      }
      if link != "" {
        err := ReplaceBinary(link, w.downloads);
        if err.Some? {
          return;
        }
        err := Clear(w.clears);
        if err.Some? {
          return;
        }
        err := Start(w.launches, w.versionRuns);
      } else {
        err := Wait(w.launches, w.runsWell);
      }
    }

    /** Two calls, the app in between perhaps ending by itself: the second finds a command
        that was never started exactly when the first was to start an app and could not. */
    method TwoCalls(link1: string, w1: World, ends: bool, link2: string, w2: World) returns (err1: Option<Fault>, err2: Option<Fault>)
      requires Valid()
      modifies this
      ensures Valid()
      ensures err2 == Some(NotStarted) <==> err1 == Some(LaunchFailed) && link1 != ""
    {
      err1 := Supervise(link1, w1);
      if ends && live != {} {
        var pid :| pid in live;
        EndByItself(pid);
      }
      err2 := Supervise(link2, w2);
    }

    /** The launch fails, the next call fails on what is left of it, and the one after that
        starts the app. */
    method FailsOnceMore(link1: string, w1: World, link2: string, w2: World, link3: string, w3: World)
        returns (err1: Option<Fault>, err2: Option<Fault>, err3: Option<Fault>)
      requires Valid() && link1 != "" && link3 != ""
      requires KillsWell(cancel, app, w1.exit) && w1.downloads && w1.clears && !w1.launches
      requires w3.downloads && w3.clears && w3.launches && w3.versionRuns
      modifies this
      ensures Valid() && err1 == Some(LaunchFailed) && err2 == Some(NotStarted) && err3 == None
      ensures binary == Some(link3) && NamesProcess(cancel, app) && live == {app.value.pid.value}
    {
      err1 := Supervise(link1, w1);
      err2 := Supervise(link2, w2);
      err3 := Supervise(link3, w3);
    }
  }

  /** What a start whose launch failed leaves behind: a command without a process. */
  predicate StaleAfterFailedStart(cancel: Option<nat>, app: Option<Command>) {
    cancel.Some? && app.Some? && app.value.pid.None?
  }

  /** There is a started app to stop. */
  predicate NamesProcess(cancel: Option<nat>, app: Option<Command>) {
    cancel.Some? && app.Some? && app.value.pid.Some?
  }

  /** After killing, every step the call takes succeeds. */
  predicate AllGoes(link: string, w: World) {
    w.launches && if link != "" then w.downloads && w.clears && w.versionRuns else w.runsWell
  }

  /** Killing finds nothing to stop, or an app that ends as it should. */
  predicate KillsWell(cancel: Option<nat>, app: Option<Command>, exit: Exit) {
    cancel.None? || (NamesProcess(cancel, app) && exit != Other)
  }
}
