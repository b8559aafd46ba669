/** The `state edit` handler: lock the stack's state, pull it to a file, open
    the file in the user's editor, push it back, and release the lock on
    every way out once it has been taken (the deferred `Unlock`). */
module StateEdit {
  import opened Errors

  /** A call the handler makes to the stack or to the editor process. */
  datatype Call = Lock | PullState | StartEditor(editor: string, path: string) | WaitEditor | PushState | Unlock

  /** How the handler's collaborators behave in one run: the project set-up
      error, whether the lock is granted, the pulled file (None when pulling
      fails), the EDITOR variable, whether the editor starts and exits
      cleanly, and what pushing the state returns. */
  datatype EditEnv = EditEnv(
    initError: Option<CliError>,
    lockOk: bool,
    pulled: Option<string>,
    editorVar: string,
    startOk: bool,
    waitOk: bool,
    pushError: Option<CliError>)

  const LOCK_FAILED: CliError := Readable("Could not lock state")
  const PULL_FAILED: CliError := Readable("Could not pull state")
  const START_FAILED: CliError := Readable("Could not start editor")
  const EDITOR_FAILED: CliError := Readable("Editor exited with error")

  /** The editor to run: EDITOR, or vim when it is empty. */
  function EditorFor(editorVar: string): (editor: string)
    ensures editor != ""
    ensures editorVar != "" ==> editor == editorVar
  {
    if editorVar == "" then "vim" else editorVar
  }

  /** Whether this run takes the lock. */
  predicate LockTaken(env: EditEnv) {
    env.initError.None? && env.lockOk
  }

  /** The calls made while the lock is held, before the deferred unlock. */
  function LockedTrace(env: EditEnv): seq<Call> {
    match env.pulled
    case None => [PullState]
    case Some(path) =>
      [PullState, StartEditor(EditorFor(env.editorVar), path)] +
      (if !env.startOk then []
       else [WaitEditor] + (if env.waitOk then [PushState] else []))
  }

  /** The error returned while the lock is held. */
  function LockedResult(env: EditEnv): Option<CliError> {
    if env.pulled.None? then Some(PULL_FAILED)
    else if !env.startOk then Some(START_FAILED)
    else if !env.waitOk then Some(EDITOR_FAILED)
    else env.pushError
  }

  /** Every call of one run, in order. */
  function EditTrace(env: EditEnv): (t: seq<Call>)
    ensures t == [] <==> env.initError.Some?
    ensures t != [] ==> t[0] == Lock
    ensures |t| <= 7
  {
    if env.initError.Some? then []
    else if !env.lockOk then [Lock]
    else [Lock] + LockedTrace(env) + [Unlock]
  }

  /** What one run returns. */
  function EditResult(env: EditEnv): (r: Option<CliError>)
    ensures env.initError.Some? ==> r == env.initError
    ensures env.initError.None? && !env.lockOk ==> r == Some(LOCK_FAILED)
    ensures r.None? ==> LockTaken(env) && env.pulled.Some?
  {
    if env.initError.Some? then env.initError
    else if !env.lockOk then Some(LOCK_FAILED)
    else LockedResult(env)
  }

  lemma LockedTraceHasNoLockCalls(env: EditEnv)
    ensures Lock !in LockedTrace(env) && Unlock !in LockedTrace(env)
    ensures multiset(LockedTrace(env))[Unlock] == 0
  {
  }

  /** The bracket: once the lock is taken the run starts with it, ends with
      the unlock and unlocks exactly once, on every path; when the lock is
      not taken nothing is pulled and nothing is unlocked. */
  lemma {:induction false} UnlockExactlyOnce(env: EditEnv)
    ensures var t := EditTrace(env);
      && (LockTaken(env) ==> |t| >= 3 && t[0] == Lock && t[|t| - 1] == Unlock && multiset(t)[Unlock] == 1)
      && (!LockTaken(env) ==> Unlock !in t && PullState !in t && multiset(t)[Unlock] == 0)
  {
    LockedTraceHasNoLockCalls(env);
    var t := EditTrace(env);
    if LockTaken(env) {
      assert multiset(t) == multiset([Lock]) + multiset(LockedTrace(env)) + multiset([Unlock]);
    }
  }

  /** A failed lock returns its own error and makes no other call. */
  lemma LockFailure(env: EditEnv)
    requires env.initError.None? && !env.lockOk
    ensures EditTrace(env) == [Lock] && EditResult(env) == Some(LOCK_FAILED)
  {
  }

  /** The state is pushed only after the editor has started and exited
      cleanly on a successfully pulled file, and then it is the last call
      before the unlock. */
  lemma PushOnlyAfterEditor(env: EditEnv)
    ensures PushState in EditTrace(env) <==>
      LockTaken(env) && env.pulled.Some? && env.startOk && env.waitOk
    ensures PushState in EditTrace(env) ==>
      EditTrace(env) == [Lock, PullState, StartEditor(EditorFor(env.editorVar), env.pulled.value),
                         WaitEditor, PushState, Unlock]
  {
    LockedTraceHasNoLockCalls(env);
  }

  /** The editor is never started with an empty command name. */
  lemma EditorNeverEmpty(env: EditEnv, editor: string, path: string)
    requires StartEditor(editor, path) in EditTrace(env)
    ensures editor != ""
    ensures editor == (if env.editorVar == "" then "vim" else env.editorVar)
    ensures env.pulled == Some(path)
  {
    LockedTraceHasNoLockCalls(env);
  }

  /** A run succeeds exactly when every step succeeds. */
  lemma SuccessIffAllSucceed(env: EditEnv)
    ensures EditResult(env).None? <==>
      LockTaken(env) && env.pulled.Some? && env.startOk && env.waitOk && env.pushError.None?
  {
  }

  /** The stack and the editor as the handler sees them: a log of the calls
      made and whether the lock is held. */
  class Session {
    var calls: seq<Call>
    var held: bool

    constructor ()
      ensures calls == [] && !held
    {
      calls := [];
      held := false;
    }

    method Record(c: Call)
      modifies this
      ensures calls == old(calls) + [c] && held == old(held)
    {
      calls := calls + [c];
    }

    /** `Stack.Lock`. */
    method TakeLock(ok: bool) returns (taken: bool)
      modifies this
      ensures taken == ok
      ensures calls == old(calls) + [Lock]
      ensures held == (old(held) || ok)
    {
      Record(Lock);
      if ok {
        held := true;
      }
      taken := ok;
    }

    /** `Stack.Unlock`. */
    method ReleaseLock()
      modifies this
      ensures calls == old(calls) + [Unlock] && !held
    {
      Record(Unlock);
      held := false;
    }

    /** Pull, edit and push, under the lock. */
    method EditLocked(env: EditEnv) returns (err: Option<CliError>)
      modifies this
      ensures calls == old(calls) + LockedTrace(env) && held == old(held)
      ensures err == LockedResult(env)
    {
      Record(PullState);
      if env.pulled.None? {
        return Some(PULL_FAILED);
      }
      var path := env.pulled.value;
      var editor := env.editorVar;
      if editor == "" {
        editor := "vim";
      }
      Record(StartEditor(editor, path));
      if !env.startOk {
        return Some(START_FAILED);
      }
      Record(WaitEditor);
      if !env.waitOk {
        return Some(EDITOR_FAILED);
      }
      Record(PushState);
      err := env.pushError;
    }

    /** The handler. The deferred unlock runs after the locked part returns,
        whatever it returns. */
    method EditState(env: EditEnv) returns (err: Option<CliError>)
      modifies this
      ensures calls == old(calls) + EditTrace(env)
      ensures err == EditResult(env)
      ensures held == (old(held) && !LockTaken(env))
    {
      if env.initError.Some? {
        return env.initError;
      }
      var taken := TakeLock(env.lockOk);
      if !taken {
        return Some(LOCK_FAILED);
      }
      err := EditLocked(env);
      ReleaseLock();
    }
  }
}
