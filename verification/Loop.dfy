/** One iteration of the main loop on the objects that the source keeps. */
module Loop {
  import opened Records
  import opened Settings
  import opened DeviceStorage
  import opened TransactionQueue
  import opened AppState
  import opened AppMachine
  import opened MainLoop
  import opened HandOver
  import B = Backend
  import ProductCatalog

  /** The terminal that the objects make up. */
  ghost function Held(t: Machine): Terminal
    requires t.Valid()
    reads t, t.service, t.service.client, t.service.queue, t.service.queue.items, t.service.queue.flash,
          t.service.catalog, t.service.catalog.items, t.service.log
  {
    Terminal(t.Whole(), t.service.client.state, Booted(t.service.queue.flash.files))
  }

  /** A queue that is not dirty is the one that flash holds. */
  ghost predicate Clean(q: Queue)
    requires q.Valid()
    reads q, q.items, q.flash
  {
    q.flash.mounted && !q.dirty ==> Booted(q.flash.files) == q.Contents()
  }

  lemma StaysClean(before: seq<Entry>, was: Safety, q: seq<Entry>, s: Safety, fate: Fate)
    requires |q| <= MAX_QUEUED && AllFit(q) && KeptSafe(before, was, q, s, fate)
    requires was.mounted && !was.dirty ==> Booted(was.files) == before
    ensures s.mounted && !s.dirty ==> Booted(s.files) == q
  {
    if q != before && !s.dirty {
      FlushThenBegin(s.files, q);
    }
  }

  /** An event, on what the objects hold; what it leaves on flash is what `Durable` says. */
  method Happens(t: Machine, e: Event, i: Instant) returns (m: Moment)
    requires t.Valid() && Clean(t.service.queue)
    modifies t`ui, t.service`slot, t.service`startedOn, t.service.queue, t.service.queue.items, t.service.queue.blob,
             t.service.queue.flash`files, t.service.queue.flash`history
    modifies t.service.catalog`dirty, t.service.catalog.items
    ensures t.Valid() && Clean(t.service.queue)
    ensures Held(t).(disk := old(Held(t)).disk) == Acted(old(Held(t)), Happen(e, m))
  {
    ghost var q, s := t.service.queue.Contents(), t.Stable();
    m := t.HandleEvent(e, i);
    StaysClean(q, s, t.service.queue.Contents(), t.Stable(), i.fate);
  }

  lemma WrittenOrNot(files: Files, q: seq<Entry>, fate: Fate)
    requires |q| <= MAX_QUEUED && AllFit(q)
    ensures var after := Booted(Last(files, Trace(files, PATH, Blob(q), fate)));
            if WriteSucceeds(Blob(q), fate) then after == q else after == Booted(files) || after == []
  {
    var after := Last(files, Trace(files, PATH, Blob(q), fate));
    BlobSize(q);
    WriteOutcome(files, PATH, Blob(q), fate);
    if WriteSucceeds(Blob(q), fate) {
      FlushThenBegin(after, q);
    }
  }

  /** transaction_queue::flush(), for what the next boot finds. */
  method Store(q: Queue, fate: Fate)
    requires q.Valid() && q.flash.Valid() && Clean(q)
    modifies q`dirty, q.blob, q.flash`files, q.flash`history
    ensures q.Valid() && q.flash.Valid() && q.Contents() == old(q.Contents()) && Clean(q)
    ensures var disk := Booted(q.flash.files);
            && (disk == q.Contents() || disk == old(Booted(q.flash.files)) || disk == [])
            && (q.flash.mounted && WriteSucceeds(Blob(q.Contents()), fate) ==> disk == q.Contents())
  {
    WrittenOrNot(q.flash.files, q.Contents(), fate);
    q.Flush(fate);
  }

  /** The queue is stored, or flash keeps what it held, or is left without the file; it is
      stored if the write goes through. */
  ghost predicate StoredOrNot(u: Terminal, v: Terminal, written: bool) {
    && (v == u || exists lost :: v == Acted(u, MainLoop.Store(lost)))
    && (written ==> v == Acted(u, MainLoop.Store(false)))
  }

  lemma StoresAs(u: Terminal, v: Terminal, written: bool)
    requires v.d == u.d && v.client == u.client && (v.disk == u.d.queue || v.disk == u.disk || v.disk == [])
    requires written ==> v.disk == u.d.queue
    ensures StoredOrNot(u, v, written)
  {
    if v.disk == [] {
      assert v == Acted(u, MainLoop.Store(true));
    } else if v.disk == u.d.queue {
      assert v == Acted(u, MainLoop.Store(false));
    }
  }

  method StoreHeld(t: Machine, fate: Fate)
    requires t.Valid() && Clean(t.service.queue)
    modifies t.service.queue`dirty, t.service.queue.blob, t.service.queue.flash`files, t.service.queue.flash`history
    ensures t.Valid() && Clean(t.service.queue)
    ensures StoredOrNot(old(Held(t)), Held(t),
                        t.service.queue.flash.mounted && WriteSucceeds(Blob(t.service.queue.Contents()), fate))
  {
    ghost var u := Held(t);
    Store(t.service.queue, fate);
    StoresAs(u, Held(t), t.service.queue.flash.mounted && WriteSucceeds(Blob(t.service.queue.Contents()), fate));
  }

  /** Backend, screens, flash, in this order: a turn of the loop, and then a flush. */
  method Iterate(t: Machine, env: B.Env, i: Instant) returns (m: Moment)
    requires t.Valid() && Clean(t.service.queue)
    modifies t`ui, t.service, t.service.client, t.service.queue, t.service.queue.items, t.service.queue.blob,
             t.service.queue.flash`files, t.service.queue.flash`history,
             t.service.catalog, t.service.catalog.items, t.service.log, t.service.log.baseline, t.service.log.view
    ensures t.Valid() && Clean(t.service.queue)
    ensures StoredOrNot(Acted(old(Held(t)), Turn(env, old(t.service.catalog.revision), m)), Held(t),
                        t.service.queue.flash.mounted && WriteSucceeds(Blob(t.service.queue.Contents()), i.fate))
  {
    m := Turned(t, env, i);
    StoreHeld(t, i.fate);
  }

  method Turned(t: Machine, env: B.Env, i: Instant) returns (m: Moment)
    requires t.Valid() && Clean(t.service.queue)
    modifies t`ui, t.service, t.service.client, t.service.queue, t.service.queue.items,
             t.service.catalog, t.service.catalog.items, t.service.log, t.service.log.baseline, t.service.log.view
    ensures t.Valid() && Clean(t.service.queue)
    ensures Held(t) == Acted(old(Held(t)), Turn(env, old(t.service.catalog.revision), m))
  {
    t.service.Update(env);
    m := t.Look(i);
    t.UpdateScreen(env.now, m);
  }

  /** What an event finds in the lists: whether there is an archived product, and the one
      that is to be archived, cut to the fields of the queue. */
  lemma ListsSeen(t: Machine, m: Moment, i: Instant)
    requires t.Valid() && t.Seen(m, i)
    ensures var items, at := t.service.catalog.Contents(), t.ui.ctx.archiveIndex;
            && m.residents == t.service.residents
            && (m.anyArchived <==> exists k :: 0 <= k < |items| && !items[k].active)
            && (m.product.Some? <==> 0 <= at < |items|)
            && (m.product.Some? ==>
                  && m.product.value.id == i.changeId && m.product.value.priceRappen == items[at].priceRappen
                  && m.product.value.freeItem == items[at].freeItem
                  && IsCut(m.product.value.barcode, items[at].barcode, 13) && IsCut(m.product.value.name, items[at].name, 39))
  {
    var items := t.service.catalog.Contents();
    ProductCatalog.CountIs(items, false);
    if k: nat :| k < |items| && !items[k].active {
      assert k in ProductCatalog.Places(items, false);
    } else {
      assert ProductCatalog.Places(items, false) == {};
    }
  }
}
