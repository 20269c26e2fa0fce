// write_atomic_json (atomic_json.py): a file is replaced by a synced temporary file, and
// every step may fail. What the rotation protocol assumes of a durable write is proved here.
module AtomicJson {
  import opened Wrappers

  // The named steps of one write, each able to raise OSError.
  datatype Operation =
    | MakeDirectory | RestrictDirectory | OpenTemporary | WriteContent | SyncContent | RestrictTemporary
    | Rename | RestrictDestination | OpenDirectory | SyncDirectory | CloseDirectory

  // The original error alone, or an exception group because removing the temporary file
  // failed as well.
  datatype WriteError = OriginalError(at: Operation) | OriginalAndCleanup(at: Operation)

  // The destination is replaced by the rename alone.
  predicate FollowsRename(at: Operation) {
    at.RestrictDestination? || at.OpenDirectory? || at.SyncDirectory? || at.CloseDirectory?
  }

  // The cleanup runs only once the temporary file is open; after the rename there is
  // nothing left to remove, but the attempt can still fail.
  predicate CleansUp(at: Operation) {
    !at.MakeDirectory? && !at.RestrictDirectory? && !at.OpenTemporary?
  }

  // A destination and the temporary file beside it.
  class JsonFile {
    var content: Option<string>
    var temporary: Option<string>

    constructor (content: Option<string>)
      ensures this.content == content && temporary == None
    {
      this.content := content;
      temporary := None;
    }

    // One step: it raises before it has any effect, or takes effect.
    method Perform(step: Operation, payload: string, fails: Option<Operation>) returns (r: Reply<(), Operation>)
      modifies this
      ensures r == if fails == Some(step) then Raised(step) else Value(())
      ensures content == if r.Value? && step.Rename? then old(temporary) else old(content)
      ensures temporary == if r.Raised? then old(temporary)
                           else if step.OpenTemporary? then Some("")
                           else if step.WriteContent? then Some(payload)
                           else if step.Rename? then None
                           else old(temporary)
    {
      if fails == Some(step) {
        return Raised(step);
      }
      match step {
        case OpenTemporary => temporary := Some("");
        case WriteContent => temporary := Some(payload);
        case Rename =>
          content := temporary;
          temporary := None;
        case _ =>
      }
      r := Value(());
    }

    // The steps before the rename, up to the first that raises.
    method WriteTemporary(payload: string, fails: Option<Operation>) returns (r: Reply<(), Operation>)
      requires temporary.None?
      modifies this
      ensures r.Value? <==> fails.None? || fails.value.Rename? || FollowsRename(fails.value)
      ensures r.Raised? ==> Some(r.error) == fails
      ensures content == old(content)
      ensures r.Value? ==> temporary == Some(payload)
      ensures r.Raised? ==> (temporary.Some? <==> CleansUp(r.error))
    {
      var _ :- Perform(MakeDirectory, payload, fails);
      var _ :- Perform(RestrictDirectory, payload, fails);
      var _ :- Perform(OpenTemporary, payload, fails);
      var _ :- Perform(WriteContent, payload, fails);
      var _ :- Perform(SyncContent, payload, fails);
      var _ :- Perform(RestrictTemporary, payload, fails);
      r := Value(());
    }

    // The rename and what makes it durable, up to the first step that raises.
    method Publish(payload: string, fails: Option<Operation>) returns (r: Reply<(), Operation>)
      requires temporary == Some(payload)
      requires fails.None? || fails.value.Rename? || FollowsRename(fails.value)
      modifies this
      ensures r.Value? <==> fails.None?
      ensures r.Raised? ==> Some(r.error) == fails
      ensures content == if r.Raised? && r.error.Rename? then old(content) else Some(payload)
      ensures temporary == if r.Raised? && r.error.Rename? then Some(payload) else None
    {
      var _ :- Perform(Rename, payload, fails);
      var _ :- Perform(RestrictDestination, payload, fails);
      var _ :- Perform(OpenDirectory, payload, fails);
      var _ :- Perform(SyncDirectory, payload, fails);
      var _ :- Perform(CloseDirectory, payload, fails);
      r := Value(());
    }

    // The steps in order, up to the first that raises.
    method Replace(payload: string, fails: Option<Operation>) returns (r: Reply<(), Operation>)
      requires temporary.None?
      modifies this
      ensures r.Value? <==> fails.None?
      ensures r.Raised? ==> Some(r.error) == fails
      ensures content == if r.Value? || FollowsRename(r.error) then Some(payload) else old(content)
      ensures temporary.Some? <==> r.Raised? && CleansUp(r.error) && !FollowsRename(r.error)
    {
      var _ :- WriteTemporary(payload, fails);
      r := Publish(payload, fails);
    }

    // write_atomic_json. `fails` says which step raises and `cleanupFails` whether removing
    // the temporary file raises anything but "not found".
    method Write(payload: string, fails: Option<Operation>, cleanupFails: bool) returns (r: Reply<(), WriteError>)
      requires temporary.None?
      modifies this
      // Old or new, never anything else; new exactly when it completed or failed after the rename.
      ensures content == if r.Value? || FollowsRename(r.error.at) then Some(payload) else old(content)
      ensures r.Value? <==> fails.None?
      ensures r.Raised? ==> Some(r.error.at) == fails
      // The exception group means exactly that the cleanup was attempted and failed too.
      ensures r.Raised? ==> (r.error.OriginalAndCleanup? <==> cleanupFails && CleansUp(r.error.at))
      // A partial temporary file is left behind exactly by a group before the rename.
      ensures temporary.Some? <==> r.Raised? && r.error.OriginalAndCleanup? && !FollowsRename(r.error.at)
    {
      var replaced := Replace(payload, fails);
      if replaced.Value? {
        return Value(());
      }
      if CleansUp(replaced.error) {
        if cleanupFails {
          return Raised(OriginalAndCleanup(replaced.error));
        }
        temporary := None;
      }
      r := Raised(OriginalError(replaced.error));
    }
  }
}
