/** The workflow controller in its own form. Its methods are proved to make exactly the calls of the
    workflow thread, in its order, so each execution of `Reconcile` is a run of the workflow machine. */
module WorkflowController {
  import opened Objects
  import opened Rounds
  import opened Api
  import opened WorkflowCluster

  /** The machine as a reconcile meets it: every call lets everybody else act first. */
  class WorkflowServer {
    var state: WorkflowState
    /** What is to happen: acts of others, and how the reconcile's own calls go. */
    var plan: seq<WorkflowAction>
    ghost var acts: seq<WorkflowAction>
    /** What had happened once the reconcile under way had made its first call. */
    ghost var past: seq<WorkflowAction>

    ghost predicate Valid()
      reads this
    {
      state == Exec(acts) && past <= acts
    }

    constructor (plan: seq<WorkflowAction>)
      ensures Valid() && state == NO_WORKFLOW && this.plan == plan && acts == []
    {
      state, this.plan, acts, past := NO_WORKFLOW, plan, [], [];
    }

    method Happen(a: WorkflowAction)
      requires Valid()
      modifies `state, `acts
      ensures Valid() && acts == old(acts) + [a] && state == Apply(old(state), a)
    {
      state := Apply(state, a);
      acts := acts + [a];
      assert acts[..|acts| - 1] == old(acts);
    }

    method Await() returns (luck: WorkflowLuck)
      requires Valid()
      modifies `state, `plan, `acts
      ensures Valid() && old(acts) <= acts && state.t == old(state.t)
    {
      luck := Luck(Refused, 0, false, Trouble);
      while plan != []
        invariant Valid() && old(acts) <= acts && state.t == old(state.t)
        decreases |plan|
      {
        var a := plan[0];
        plan := plan[1..];
        if a.Turn? {
          return a.luck;
        }
        if !a.Crash? {
          Happen(a);
        }
      }
    }

    method Open() returns (r: WorkflowAnswer)
      requires Valid() && state.t.Idle?
      modifies `state, `plan, `acts, `past
      ensures Valid() && old(acts) < past == acts && past[|past| - 1].Turn?
      ensures state.t == Resume(Idle, r)
    {
      var luck := Await();
      r := AnswerTo(state.h, Get, luck);
      Happen(Turn(luck));
      past := acts;
    }

    method Serve(req: WorkflowRequest) returns (r: WorkflowAnswer)
      requires Valid() && !state.t.Idle? && req == Call(state.t)
      modifies `state, `plan, `acts
      ensures Valid() && state.t == Resume(old(state.t), r)
    {
      var luck := Await();
      r := AnswerTo(state.h, req, luck);
      Happen(Turn(luck));
    }
  }

  datatype Outcome = Generated | Rejected | Panicked

  class WorkflowContext {
    const server: WorkflowServer
    var workflow: Workflow
    var ver: nat

    constructor (server: WorkflowServer, workflow: Workflow, ver: nat)
      ensures this.server == server && this.workflow == workflow && this.ver == ver
    {
      this.server, this.workflow, this.ver := server, workflow, ver;
    }

    method SetStatus(s: Status)
      requires workflow.base.Some?
      modifies `workflow
      ensures workflow == Marked(old(workflow), s)
    {
      workflow := workflow.(base := Some(workflow.base.value.(status := s)));
    }

    /** A status write whose failure is swallowed. */
    method PublishStatus(failed: bool)
      requires server.Valid() && workflow.base.Some?
      requires server.state.t == if failed then Recover(Marked(workflow, Failed), ver) else Publish(workflow, ver)
      modifies this, server`state, server`plan, server`acts
      ensures server.Valid() && server.state.t.Idle?
    {
      if failed {
        SetStatus(Failed);
      }
      var r := server.Serve(Save(workflow.base.value, ver));
      if r.SavedAt? {
        ver := r.ver;
      }
    }

    /** Build the builder and the deployer from the spec and store them; a nil pointer in the spec panics
        before the first call. */
    method GenerateWorkload(ghost aim: Aim) returns (outcome: Outcome)
      requires server.Valid() && server.state.t == Generate(workflow, ver, aim)
      modifies server`state, server`plan, server`acts
      ensures server.Valid()
      ensures outcome.Panicked? <==> Panics(workflow.spec)
      ensures match outcome
              case Generated => server.state.t == AfterGenerate(workflow, ver, aim)
              case Rejected => server.state.t.Idle?
              case Panicked => server.state.t == Recover(Marked(workflow, Failed), ver)
    {
      var deploy := workflow.spec.deploy;
      if workflow.spec.build {
        if deploy.changeEnv {
          if !deploy.hasBaseImage {
            return Rejected;
          }
          if !deploy.hasFilePair {
            return Panicked;
          }
        }
        var stored := server.Serve(Ask(StoreBuilder));
        if !stored.Fine? {
          return Rejected;
        }
      } else if !deploy.hasBaseImage {
        return Panicked;
      }
      var stored := server.Serve(Ask(StoreDeployer));
      return if stored.Fine? then Generated else Rejected;
    }

    /** Appends to the history in memory. */
    method BackupState()
      requires workflow.base.Some?
      modifies `workflow
      ensures workflow == WithBase(old(workflow), Backup(BaseOf(old(workflow))))
    {
      var base := workflow.base.value;
      if base.currentRound != 0 {
        var rec := HistoryRecord(base.currentRound, base.status);
        workflow := workflow.(base := Some(base.(history := base.history + [rec])));
      }
    }

    method Park() returns (ok: bool)
      requires server.Valid() && server.state.t == Generate(workflow, ver, Parking) && workflow.base.Some?
      modifies this, server`state, server`plan, server`acts
      ensures server.Valid() && server.state.t.Idle?
    {
      var outcome := GenerateWorkload(Parking);
      match outcome {
        case Panicked =>
          PublishStatus(true);              // the deferred recover
          ok := false;
        case Rejected =>
          ok := false;
        case Generated =>
          SetStatus(Undo);
          var written := server.Serve(Save(workflow.base.value, ver));
          ok := written.SavedAt?;
      }
    }

    /** The advance branch: back up first, then generate, then store. */
    method Advance() returns (ok: bool)
      requires server.Valid() && workflow.base.Some?
      requires server.state.t == Generate(WithBase(workflow, Backup(BaseOf(workflow))), ver, Advancing)
      modifies this, server`state, server`plan, server`acts
      ensures server.Valid() && server.state.t.Idle?
    {
      BackupState();
      var outcome := GenerateWorkload(Advancing);
      match outcome {
        case Panicked =>
          PublishStatus(true);              // the deferred recover
          ok := false;
        case Rejected =>
          ok := false;
        case Generated =>
          workflow := workflow.(
            base := Some(workflow.base.value.(status := Pending, currentRound := workflow.spec.round)));
          var written := server.Serve(Save(workflow.base.value, ver));
          ok := written.SavedAt?;
      }
    }

    /** The workflow's status out of its builder's and its deployer's. */
    method Observe() returns (ok: bool)
      requires server.Valid() && server.state.t == FindBuilder(workflow, ver) && workflow.base.Some?
      modifies this, server`state, server`plan, server`acts
      ensures server.Valid() && server.state.t.Idle?
    {
      var builder := server.Serve(Ask(TheBuilder));
      if !builder.Seen? && !builder.Missing? {
        return false;
      }
      var deployer := server.Serve(Ask(TheDeployer));
      if !deployer.Seen? {
        return false;
      }
      if builder.Missing? {
        SetStatus(deployer.status);
      } else if builder.status == Doing {
        SetStatus(Doing);
      } else if Terminal(builder.status) {
        SetStatus(deployer.status);
        if !HasStarted(workflow.base.value.status) {
          SetStatus(Doing);
        }
      }
      PublishStatus(false);
      return true;
    }

    /** Reconcile, once the workflow is known to be live and to carry the finalizer. */
    method Proceed() returns (ok: bool)
      requires server.Valid() && server.state.t == Route(workflow, ver)
      modifies this, server`state, server`plan, server`acts
      ensures server.Valid() && server.state.t.Idle?
    {
      if workflow.base.None? {
        workflow := workflow.(base := Some(BLANK));
        var written := server.Serve(Save(BLANK, ver));
        return written.SavedAt?;
      }
      if workflow.spec.round < workflow.base.value.currentRound {
        ok := Park();
      } else if workflow.spec.round > workflow.base.value.currentRound {
        ok := Advance();
      } else {
        ok := Observe();
      }
    }
  }

  /** `WorkflowReconciler.Reconcile`: one whole reconcile, from its first call (the last act of `past`)
      until the thread is idle again. */
  method Reconcile(server: WorkflowServer) returns (ok: bool)
    requires server.Valid() && server.state.t.Idle?
    modifies server
    ensures server.Valid() && old(server.acts) < server.past && server.past[|server.past| - 1].Turn?
    ensures server.state.t.Idle?
  {
    var read := server.Open();
    if !read.Got? {
      return false;
    }
    var ctx := new WorkflowContext(server, read.workflow, read.ver);
    if ctx.workflow.deleting {
      if ctx.workflow.finalizer {
        ctx.workflow := ctx.workflow.(finalizer := false);
        var written := server.Serve(Guard(false, ctx.ver));
        return written.SavedAt?;
      }
      return true;
    }
    if !ctx.workflow.finalizer {
      ctx.workflow := ctx.workflow.(finalizer := true);
      var written := server.Serve(Guard(true, ctx.ver));
      if !written.SavedAt? {
        return false;
      }
      ctx.workflow, ctx.ver := Updated(ctx.workflow), written.ver;
    }
    ok := ctx.Proceed();
  }
}
