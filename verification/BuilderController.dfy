/** The builder controller in its own form. Its methods are proved to make exactly the calls of the
    builder thread, in its order, so each execution of `Reconcile` is a run of the builder machine. */
module BuilderController {
  import opened Objects
  import opened Rounds
  import opened Pods
  import opened Api
  import opened BuilderCluster

  /** The machine as a reconcile meets it: every call lets everybody else act first. */
  class BuilderServer {
    var state: BuilderState
    /** What is to happen: acts of others, and how the reconcile's own calls go. */
    var plan: seq<BuilderAction>
    ghost var acts: seq<BuilderAction>
    /** What had happened once the reconcile under way had made its first call. */
    ghost var past: seq<BuilderAction>

    ghost predicate Valid()
      reads this
    {
      state == Exec(acts) && past <= acts
    }

    constructor (plan: seq<BuilderAction>)
      ensures Valid() && state == NO_BUILDER && this.plan == plan && acts == []
    {
      state, this.plan, acts, past := NO_BUILDER, plan, [], [];
    }

    method Happen(a: BuilderAction)
      requires Valid()
      modifies `state, `acts
      ensures Valid() && acts == old(acts) + [a] && state == Apply(old(state), a)
    {
      state := Apply(state, a);
      acts := acts + [a];
      assert acts[..|acts| - 1] == old(acts);
    }

    method Await() returns (luck: BuilderLuck)
      requires Valid()
      modifies `state, `plan, `acts
      ensures Valid() && old(acts) <= acts && state.t == old(state.t)
    {
      luck := Luck(Refused, 0, false, Trouble);
      while plan != []
        invariant Valid() && old(acts) <= acts && state.t == old(state.t)
        decreases |plan|
      {
        var a := plan[0];
        plan := plan[1..];
        if a.Turn? {
          return a.luck;
        }
        if !a.Crash? {
          Happen(a);
        }
      }
    }

    method Open() returns (r: BuilderAnswer)
      requires Valid() && state.t.Idle?
      modifies `state, `plan, `acts, `past
      ensures Valid() && old(acts) < past == acts && past[|past| - 1].Turn?
      ensures state.t == Resume(Idle, r)
    {
      var luck := Await();
      r := AnswerTo(state.h, Get, luck);
      Happen(Turn(luck));
      past := acts;
    }

    method Serve(req: BuilderRequest) returns (r: BuilderAnswer)
      requires Valid() && !state.t.Idle? && req == Call(state.t)
      modifies `state, `plan, `acts
      ensures Valid() && state.t == Resume(old(state.t), r)
    {
      var luck := Await();
      r := AnswerTo(state.h, req, luck);
      Happen(Turn(luck));
    }
  }

  class BuildContext {
    const server: BuilderServer
    var builder: Builder
    var ver: nat

    constructor (server: BuilderServer, builder: Builder, ver: nat)
      ensures this.server == server && this.builder == builder && this.ver == ver
    {
      this.server, this.builder, this.ver := server, builder, ver;
    }

    method SetStatus(s: Status)
      modifies `builder
      ensures builder == Marked(old(builder), s)
    {
      builder := builder.(status := builder.status.(status := s));
    }

    /** A status write whose failure is swallowed. */
    method PublishStatus(failed: bool)
      requires server.Valid() && !server.state.t.Idle?
      requires Call(server.state.t) == Save((if failed then Marked(builder, Failed) else builder).status, ver)
      requires server.state.t.Announce? ==> server.state.t == Announce(builder, ver) && !failed
      modifies this, server`state, server`plan, server`acts
      ensures server.Valid()
      ensures builder == if failed then Marked(old(builder), Failed) else old(builder)
      ensures server.state.t == if old(server.state.t).Announce? then MakeJob(builder, ver) else Idle
    {
      if failed {
        SetStatus(Failed);
      }
      var r := server.Serve(Save(builder.status, ver));
      if r.SavedAt? {
        ver := r.ver;
      }
    }

    method DeleteJob() returns (ok: bool)
      requires server.Valid() && server.state.t == FindOldJob(builder, ver)
      modifies server`state, server`plan, server`acts
      ensures server.Valid()
      ensures server.state.t == if ok then Commit(NextRound(builder), ver) else Idle
    {
      var found := server.Serve(Ask(OldJob));
      if !found.There? {
        return false;
      }
      if !found.found {
        return true;
      }
      var dropped := server.Serve(Ask(DropJob));
      ok := dropped.Fine?;
    }

    /** Appends to the history in memory. */
    method BackupState()
      modifies `builder
      ensures builder == old(builder).(status := Backup(old(builder).status))
    {
      if builder.status.currentRound != 0 {
        var rec := HistoryRecord(builder.status.currentRound, builder.status.status);
        builder := builder.(status := builder.status.(history := builder.status.history + [rec]));
      }
    }

    /** `CreateAndWatchJob` with a hook after success. */
    method CreateAndWatchJob() returns (ok: bool)
      requires server.Valid() && server.state.t == FindJob(builder, ver)
      modifies this, server`state, server`plan, server`acts
      ensures server.Valid()
      ensures server.state.t == Publish(if ok then builder else Marked(builder, Failed), ver)
    {
      var found := server.Serve(Ask(CurrentJob));
      if !found.There? {
        return false;
      }
      if !found.found {
        SetStatus(Pending);
        PublishStatus(false);
        var made := server.Serve(Ask(NewJob));
        return made.Fine?;
      }
      var pods := server.Serve(Ask(PodsOfJob));
      if !pods.PodsSeen? {
        return false;
      }
      TakeStatus(StatusOf(pods.pods));
      return true;
    }

    /** The pods' status becomes the builder's, but a first success only once the hook succeeds. */
    method TakeStatus(s: Status)
      requires server.Valid() && server.state.t == Judge(builder, ver, s)
      modifies this, server`state, server`plan, server`acts
      ensures server.Valid() && server.state.t == Publish(builder, ver)
    {
      if s == Done && builder.status.status != Done {
        var hooked := server.Serve(Ask(Hook));
        if !hooked.Fine? {
          SetStatus(Doing);
          return;
        }
      }
      SetStatus(s);
    }

    /** The advance branch: delete the job, back up, store. */
    method Advance() returns (ok: bool)
      requires server.Valid() && server.state.t == FindOldJob(builder, ver)
      modifies this, server`state, server`plan, server`acts
      ensures server.Valid() && server.state.t.Idle?
    {
      ok := DeleteJob();
      if !ok {
        return;
      }
      BackupState();
      builder := builder.(status := builder.status.(status := Pending, currentRound := builder.round));
      var written := server.Serve(Save(builder.status, ver));
      ok := written.SavedAt?;
    }

    /** Reconcile, once the builder is known to be live and to carry the finalizer. */
    method Proceed() returns (ok: bool)
      requires server.Valid() && server.state.t == Route(builder, ver)
      modifies this, server`state, server`plan, server`acts
      ensures server.Valid() && server.state.t.Idle?
    {
      if builder.round < builder.status.currentRound {
        SetStatus(Undo);
        var written := server.Serve(Save(builder.status, ver));
        return written.SavedAt?;
      }
      if builder.round > builder.status.currentRound {
        ok := Advance();
        return;
      }
      ok := CreateAndWatchJob();
      PublishStatus(!ok);
    }
  }

  /** `BuilderReconciler.Reconcile`: one whole reconcile, from its first call (the last act of `past`)
      until the thread is idle again. */
  method Reconcile(server: BuilderServer) returns (ok: bool)
    requires server.Valid() && server.state.t.Idle?
    modifies server
    ensures server.Valid() && old(server.acts) < server.past && server.past[|server.past| - 1].Turn?
    ensures server.state.t.Idle?
  {
    var read := server.Open();
    if !read.Got? {
      return false;
    }
    var ctx := new BuildContext(server, read.builder, read.ver);
    if ctx.builder.deleting {
      if ctx.builder.finalizer {
        ctx.builder := ctx.builder.(finalizer := false);
        var written := server.Serve(Guard(false, ctx.ver));
        return written.SavedAt?;
      }
      return true;
    }
    if !ctx.builder.finalizer {
      ctx.builder := ctx.builder.(finalizer := true);
      var written := server.Serve(Guard(true, ctx.ver));
      if !written.SavedAt? {
        return false;
      }
      ctx.builder, ctx.ver := Updated(ctx.builder), written.ver;
    }
    ok := ctx.Proceed();
  }
}
