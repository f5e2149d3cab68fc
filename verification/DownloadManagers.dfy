/** The critical sections of downloadMu: internal/messenger/downloads.go. */
module DownloadManagers {
  import opened Basics
  import opened DownloadRows

  /** context.Context with its cancel function. */
  class Context {
    var live: bool

    constructor ()
      ensures live
    {
      live := true;
    }

    method Cancel()
      modifies this
      ensures !live
    {
      live := false;
    }
  }

  /** What the disk and the database answer to one completion. */
  datatype CompletionIo = CompletionIo(write: bool, lookup: bool, rename: bool, mark: bool)

  class Manager {
    const store: Store
    var contexts: map<FileId, Context>
    var pending: set<FileId>
    var disk: map<string, seq<byte>>

    constructor (store: Store)
      ensures Valid() && this.store == store && contexts == map[] && pending == {} && disk == map[]
    {
      this.store := store;
      contexts := map[];
      pending := {};
      disk := map[];
    }

    /** Each file has a context of its own, live, and never one for a cancelled file. */
    ghost predicate Valid()
      reads this, store, contexts.Values
    {
      && (forall id <- contexts :: contexts[id].live)
      && (forall id, other :: id in contexts && other in contexts && contexts[id] == contexts[other] ==> id == other)
      && (forall id <- contexts :: id in store.rows && store.rows[id].cancelled.None?)
    }

    /** Afterwards the row is cancelled for good, the context every processor of the
        file holds is dead, and the file is no longer pending. */
    method CancelFileDownload(id: FileId, now: int) returns (ok: bool)
      requires Valid()
      modifies this`contexts, this`pending, store`rows, contexts.Values
      ensures Valid()
      ensures ok <==>
              id in old(store.rows) && old(store.rows)[id].completed.None? && old(store.rows)[id].cancelled.None?
      ensures store.rows == Do(old(store.rows), Cancel(id, now))
      ensures ok ==> contexts == old(contexts) - {id} && pending == old(pending) - {id}
      ensures ok && id in old(contexts) ==> !old(contexts)[id].live
      ensures !ok ==> contexts == old(contexts) && pending == old(pending)
      ensures forall other <- contexts :: contexts[other].live
    {
      ok := store.CancelFileDownload(id, now);
      if !ok {
        return;
      }
      if id in contexts {
        contexts[id].Cancel();
        contexts := contexts - {id};
      }
      pending := pending - {id};
    }

    /** No context for a cancelled or untracked file; otherwise the one context of the
        file, shared by all its processors. */
    method BeginFileDownload(id: FileId) returns (ctx: Option<Context>)
      requires Valid()
      modifies this`contexts
      ensures Valid()
      ensures ctx.Some? <==> id in store.rows && store.rows[id].cancelled.None?
      ensures ctx.Some? ==> contexts == old(contexts)[id := ctx.value] && ctx.value.live
      ensures ctx.Some? && id in old(contexts) ==> contexts == old(contexts)
      ensures ctx.Some? && id !in old(contexts) ==> fresh(ctx.value)
      ensures ctx.None? ==> contexts == old(contexts)
    {
      if id !in store.rows || store.rows[id].cancelled.Some? {
        return None;
      }
      if id in contexts {
        return Some(contexts[id]);
      }
      var created := new Context();
      contexts := contexts[id := created];
      ctx := Some(created);
    }

    method EndFileDownload(id: FileId)
      requires Valid()
      modifies this`contexts, contexts.Values
      ensures Valid()
      ensures contexts == old(contexts) - {id}
      ensures id in old(contexts) ==> !old(contexts)[id].live
    {
      if id in contexts {
        contexts[id].Cancel();
        contexts := contexts - {id};
      }
    }

    /** Writes outside the lock, renames and marks inside it. The file appears on disk
        exactly when the write, the lookup and the rename work, the processor's context
        is alive and the row is not cancelled; the row is completed in the same section,
        unless the mark itself fails. A processor whose file was cancelled changes
        nothing. */
    method CompleteFileDownload(ctx: Context, id: FileId, path: string, data: seq<byte>, at: int, io: CompletionIo)
      returns (ok: bool)
      requires Valid()
      modifies this`disk, store`rows
      ensures Valid()
      ensures var renamed := ctx.live && id in old(store.rows) && old(store.rows)[id].cancelled.None?
                             && io.write && io.lookup && io.rename;
              && disk == (if renamed then old(disk)[path := data] else old(disk))
              && (ok <==> renamed && io.mark)
      ensures store.rows == if ok then Do(old(store.rows), Complete(id, path, at)) else old(store.rows)
      ensures ok ==> store.rows[id].completed == Some(at) && store.rows[id].localPath == path
    {
      if !ctx.live || !io.write {
        return false;
      }
      if !io.lookup || id !in store.rows || store.rows[id].cancelled.Some? {
        return false;
      }
      if !io.rename {
        return false;
      }
      disk := disk[path := data];
      if !io.mark {
        return false;
      }
      ok := store.MarkFileDownloadCompleted(id, path, at);
    }
  }

  /** A processor that began before a cancel and completes after it writes nothing,
      and no new processor can begin. */
  method CancelBetween(m: Manager, id: FileId, now: int, path: string, data: seq<byte>, io: CompletionIo)
    returns (cancelled: bool, saved: bool)
    requires m.Valid()
    modifies m, m.store, m.contexts.Values
    ensures m.Valid()
    ensures cancelled ==> !saved && m.disk == old(m.disk) && id !in m.contexts
    ensures cancelled ==> id in m.store.rows && m.store.rows[id].cancelled == Some(now)
    ensures !cancelled && saved ==> m.disk == old(m.disk)[path := data]
  {
    saved := false;
    var ctx := m.BeginFileDownload(id);
    cancelled := m.CancelFileDownload(id, now);
    if ctx.Some? {
      saved := m.CompleteFileDownload(ctx.value, id, path, data, now, io);
    }
  }
}
