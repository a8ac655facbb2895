/** The off-lock state file scheme that master and slave share: a snapshot gets a
    sequence number under the lock and is written later, under another lock, unless a
    newer one has been written already. */
module Persist {

  /** `log` (every snapshot this process took; number n is log[n - 1]) and `base` (what
      the file held when the process started) are history variables. */
  datatype Store<T> = Store(base: T, log: seq<T>, pending: set<nat>, writtenSeq: nat, disk: T)

  function Fresh<T>(disk: T): Store<T> { Store(disk, [], {}, 0, disk) }

  function Take<T>(st: Store<T>, content: T): Store<T> {
    st.(log := st.log + [content], pending := st.pending + {|st.log| + 1})
  }

  /** The write of snapshot `number`. `ok` is whether the atomic file write succeeds; a
      failed one leaves the file as it was. */
  function Write<T>(st: Store<T>, number: nat, ok: bool): Store<T>
    requires 1 <= number <= |st.log|
  {
    var left := st.(pending := st.pending - {number});
    if number <= st.writtenSeq || !ok then left
    else left.(writtenSeq := number, disk := st.log[number - 1])
  }

  /** The content that carries number `n`; number 0 is what the process started from. */
  function Content<T>(st: Store<T>, n: nat): T
    requires n <= |st.log|
  {
    if n == 0 then st.base else st.log[n - 1]
  }

  ghost predicate StoreInv<T>(st: Store<T>) {
    && st.writtenSeq <= |st.log|
    && (forall n :: n in st.pending ==> 1 <= n <= |st.log|)
    && st.disk == Content(st, st.writtenSeq)
  }

  /** Snapshot `n` is the file, or may still replace it. */
  predicate Live<T>(st: Store<T>, n: nat) {
    n == st.writtenSeq || (n in st.pending && n > st.writtenSeq)
  }

  lemma TakeKeepsContents<T>(st: Store<T>, content: T, n: nat)
    requires n <= |st.log|
    ensures Content(Take(st, content), n) == Content(st, n)
  {
  }

  lemma TakeLive<T>(st: Store<T>, content: T, n: nat)
    requires StoreInv(st) && Live(Take(st, content), n)
    ensures n <= |st.log| ==> Live(st, n) && Content(Take(st, content), n) == Content(st, n)
    ensures n > |st.log| ==> n == |st.log| + 1 && Content(Take(st, content), n) == content
  {
  }

  lemma WriteLive<T>(st: Store<T>, number: nat, ok: bool, n: nat)
    requires StoreInv(st) && number in st.pending && Live(Write(st, number, ok), n)
    ensures n <= |st.log| && Live(st, n) && Content(Write(st, number, ok), n) == Content(st, n)
  {
  }

  /** A live snapshot becomes the file by its own write alone, if it is not the file yet. */
  lemma LiveCanBeDisk<T>(st: Store<T>, n: nat)
    requires StoreInv(st) && Live(st, n)
    ensures n <= |st.log|
    ensures n == st.writtenSeq ==> st.disk == Content(st, n)
    ensures n != st.writtenSeq ==> n in st.pending && 1 <= n && Write(st, n, true).disk == Content(st, n)
  {
  }

  // ----- What all live snapshots have -----

  /** The file, and every snapshot that may still replace it, is so. */
  ghost predicate LiveAll<T>(st: Store<T>, ok: T -> bool) {
    forall n: nat :: Live(st, n) ==> n <= |st.log| && ok(Content(st, n))
  }

  /** Every snapshot from number `k` on is so. */
  ghost predicate AllSince<T>(st: Store<T>, ok: T -> bool, k: nat) {
    forall n :: k <= n <= |st.log| ==> ok(Content(st, n))
  }

  lemma TakeLiveAll<T>(st: Store<T>, content: T, ok: T -> bool)
    requires StoreInv(st) && LiveAll(st, ok) && ok(content)
    ensures LiveAll(Take(st, content), ok)
  {
    var next := Take(st, content);
    forall n: nat | Live(next, n)
      ensures n <= |next.log| && ok(Content(next, n))
    {
      TakeLive(st, content, n);
    }
  }

  lemma WriteLiveAll<T>(st: Store<T>, number: nat, done: bool, ok: T -> bool)
    requires StoreInv(st) && LiveAll(st, ok) && number in st.pending
    ensures LiveAll(Write(st, number, done), ok)
  {
    var next := Write(st, number, done);
    forall n: nat | Live(next, n)
      ensures n <= |next.log| && ok(Content(next, n))
    {
      WriteLive(st, number, done, n);
    }
  }

  lemma LiveAllOnDisk<T>(st: Store<T>, ok: T -> bool)
    requires StoreInv(st) && LiveAll(st, ok)
    ensures ok(st.disk)
  {
    assert Live(st, st.writtenSeq);
  }

  lemma TakeAllSince<T>(st: Store<T>, content: T, ok: T -> bool, k: nat)
    requires AllSince(st, ok, k) && ok(content)
    ensures AllSince(Take(st, content), ok, k)
  {
    var next := Take(st, content);
    forall n | k <= n <= |next.log|
      ensures ok(Content(next, n))
    {
      if n <= |st.log| {
        TakeKeepsContents(st, content, n);
      }
    }
  }

  lemma WriteAllSince<T>(st: Store<T>, number: nat, done: bool, ok: T -> bool, k: nat)
    requires AllSince(st, ok, k) && 1 <= number <= |st.log|
    ensures AllSince(Write(st, number, done), ok, k)
  {
    var next := Write(st, number, done);
    assert forall n :: 0 <= n <= |next.log| ==> Content(next, n) == Content(st, n);
  }

  /** Once one of them has been written, only such snapshots are live. */
  lemma WrittenLiveAll<T>(st: Store<T>, ok: T -> bool, k: nat)
    requires StoreInv(st) && AllSince(st, ok, k) && st.writtenSeq >= k
    ensures LiveAll(st, ok)
  {
  }

  datatype StoreEvent<T> = TookSnapshot(content: T) | Wrote(number: nat, ok: bool)

  function ApplyEvent<T>(st: Store<T>, e: StoreEvent<T>): Store<T> {
    match e
    case TookSnapshot(content) => Take(st, content)
    case Wrote(number, ok) => if number in st.pending && 1 <= number <= |st.log| then Write(st, number, ok) else st
  }

  function RunStore<T>(st: Store<T>, events: seq<StoreEvent<T>>): Store<T> {
    if events == [] then st else ApplyEvent(RunStore(st, events[..|events| - 1]), events[|events| - 1])
  }

  /** The highest number whose file write took effect in a run of one process. */
  function HighestWritten<T>(st: Store<T>, events: seq<StoreEvent<T>>): nat {
    if events == [] then 0
    else
      var before := RunStore(st, events[..|events| - 1]);
      var highest := HighestWritten(st, events[..|events| - 1]);
      match events[|events| - 1]
      case TookSnapshot(_) => highest
      case Wrote(number, ok) =>
        if ok && number in before.pending && 1 <= number <= |before.log| && number > highest then number else highest
  }

  /** Over every interleaving of snapshots and writes, in any order and with any
      failures, the file holds the highest-numbered snapshot successfully written, and a
      snapshot never changes once taken. */
  lemma {:induction false} DiskHoldsHighest<T>(st: Store<T>, events: seq<StoreEvent<T>>)
    requires st.log == [] && st.pending == {} && st.writtenSeq == 0 && st.disk == st.base
    ensures StoreInv(RunStore(st, events))
    ensures RunStore(st, events).writtenSeq == HighestWritten(st, events)
    ensures RunStore(st, events).disk == Content(RunStore(st, events), HighestWritten(st, events))
  {
    if events != [] {
      DiskHoldsHighest(st, events[..|events| - 1]);
    }
  }

  /** The file never goes back: extending a run keeps the written number or raises it. */
  lemma {:induction false} DiskNeverRegresses<T>(st: Store<T>, events: seq<StoreEvent<T>>, n: nat)
    requires n <= |events|
    ensures RunStore(st, events[..n]).writtenSeq <= RunStore(st, events).writtenSeq
    ensures RunStore(st, events[..n]).log <= RunStore(st, events).log
  {
    if n < |events| {
      DiskNeverRegresses(st, events[..|events| - 1], n);
      assert events[..|events| - 1][..n] == events[..n];
    } else {
      assert events[..n] == events;
    }
  }

  /** A state file object: the counters that the two locks guard, and the file. */
  class StateFile<T> {
    var persistSeq: nat
    var persistedSeq: nat
    var disk: T
    ghost var store: Store<T>

    ghost predicate Valid()
      reads this
    {
      && StoreInv(store)
      && persistSeq == |store.log|
      && persistedSeq == store.writtenSeq
      && disk == store.disk
    }

    constructor (content: T)
      ensures Valid() && store == Fresh(content)
    {
      persistSeq, persistedSeq, disk, store := 0, 0, content, Fresh(content);
    }

    /** Called with the state lock held. */
    method Snapshot(content: T) returns (number: nat)
      requires Valid()
      modifies this
      ensures Valid() && store == Take(old(store), content)
      ensures number == |store.log| && Content(store, number) == content
    {
      persistSeq := persistSeq + 1;
      number := persistSeq;
      store := Take(store, content);
    }

    /** Called without the state lock; `ok` is the result of the file write. */
    method PersistState(number: nat, content: T, ok: bool)
      requires Valid()
      requires 1 <= number <= |store.log| && content == Content(store, number)
      modifies this
      ensures Valid() && store == Write(old(store), number, ok)
    {
      store := Write(store, number, ok);
      if number <= persistedSeq {
        return;
      }
      if !ok {
        return;
      }
      disk := content;
      persistedSeq := number;
    }
  }
}
