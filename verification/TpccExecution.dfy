/** Executing a transaction on its key list and applying the writes (execution/tpcc.cpp and
    execution/execution.cpp). */
module TpccExecutions {
  import opened TpccCodec
  import opened TpccAdapters
  import opened TpccAdapterObjects
  import opened TpccTables
  import opened TpccTxns
  import opened TpccRuns
  import opened TpccDispatch
  import opened TpccProcedures

  /** The writes of one partition. */
  function ApplyAt(db: Db, local: Bytes -> bool, cells: map<Bytes, Cell>, deleted: seq<Bytes>): Db {
    (db + map k | k in cells && cells[k].write && local(k) :: cells[k].newValue) - set k | k in deleted
  }

  /** All partitions up to p, one after the other. */
  ghost function ApplyPartitions(db: Db, part: Bytes -> nat, cells: map<Bytes, Cell>, deleted: seq<Bytes>, p: nat): Db {
    if p == 0 then db
      else ApplyAt(ApplyPartitions(db, part, cells, deleted, p - 1), k => part(k) == p - 1, cells, deleted)
  }

  lemma {:induction false} PartitionsValue(db: Db, part: Bytes -> nat, cells: map<Bytes, Cell>, deleted: seq<Bytes>,
      p: nat, k: Bytes)
    ensures var r := ApplyPartitions(db, part, cells, deleted, p);
      && (k in r <==> !(p > 0 && k in deleted) && (k in db || (k in cells && cells[k].write && part(k) < p)))
      && (k in r ==> r[k] == if k in cells && cells[k].write && part(k) < p then cells[k].newValue else db[k])
  {
    if p > 0 { PartitionsValue(db, part, cells, deleted, p - 1, k); }
  }

  /** Every partition writes its own keys, together they write all of them. */
  lemma PartitionsApplyAll(db: Db, part: Bytes -> nat, cells: map<Bytes, Cell>, deleted: seq<Bytes>, p: nat)
    requires p > 0 && forall k :: part(k) < p
    ensures ApplyPartitions(db, part, cells, deleted, p) == Apply(db, cells, deleted)
  {
    forall k ensures
      var r, all := ApplyPartitions(db, part, cells, deleted, p), Apply(db, cells, deleted);
      (k in r <==> k in all) && (k in r ==> r[k] == all[k])
    {
      PartitionsValue(db, part, cells, deleted, p, k);
    }
  }

  class Storage {
    var data: Db

    constructor (data: Db)
      ensures this.data == data
    {
      this.data := data;
    }
  }

  class TPCCExecution {
    const local: Bytes -> bool
    const storage: Storage

    constructor (local: Bytes -> bool, storage: Storage)
      ensures this.local == local && this.storage == storage
    {
      this.local, this.storage := local, storage;
    }

    method WriteBack(keys: seq<Entry>, ghost index: map<Bytes, nat>)
      requires Inverse(keys, index)
      modifies storage
      ensures var cells := CellsOf(keys, index);
        storage.data == old(storage.data) + map k | k in cells && cells[k].write && local(k) :: cells[k].newValue
    {
      ghost var before := storage.data;
      for i := 0 to |keys|
        invariant forall k :: k in storage.data <==> k in before || Done(keys, index, i, k)
        invariant forall k ::
          k in storage.data ==>
            storage.data[k] == if Done(keys, index, i, k) then keys[index[k]].newValue else before[k]
      {
        if local(keys[i].key) && keys[i].write {
          storage.data := storage.data[keys[i].key := keys[i].newValue];
        }
      }
      assert forall k ::
        Done(keys, index, |keys|, k) <==> k in CellsOf(keys, index) && CellsOf(keys, index)[k].write && local(k);
    }

    /** The key is written back by the first i steps. */
    ghost predicate Done(keys: seq<Entry>, index: map<Bytes, nat>, i: nat, k: Bytes) {
      k in index && index[k] < i && index[k] < |keys| && keys[index[k]].write && local(k)
    }

    method ApplyWrites(keys: seq<Entry>, deleted: seq<Bytes>, ghost index: map<Bytes, nat>)
      requires Inverse(keys, index)
      modifies storage
      ensures storage.data == ApplyAt(old(storage.data), local, CellsOf(keys, index), deleted)
    {
      hide CellsOf, Inverse;
      WriteBack(keys, index);
      ghost var written := storage.data;
      for i := 0 to |deleted|
        invariant storage.data == written - set k | k in deleted[..i]
      {
        assert deleted[..i + 1] == deleted[..i] + [deleted[i]];
        storage.data := storage.data - {deleted[i]};
      }
      assert deleted[..|deleted|] == deleted;
    }

    /** Picks the procedure by its name. */
    method RunProcedure(txn: Txn, adapter: StorageAdapter) returns (ok: bool)
      requires adapter.Valid()
      modifies adapter.Objects()
      ensures adapter.Valid() && (adapter.View(), ok) == Executed(old(adapter.View()), txn)
    {
      hide Executed;
      match txn
      case NewOrderTxn(x) =>
        var p := new NewOrderProcedure(adapter, x);
        ok := p.Execute();
      case PaymentTxn(x) =>
        var p := new PaymentProcedure(adapter, x.w, x.d, x.cw, x.cd, x.c, x.amount, x.datetime, x.h);
        ArgsFit(x);
        ok := p.Execute();
      case DeliverTxn(x) =>
        var p := new DeliverProcedure(adapter, x);
        ok := p.Execute();
      case OrderStatusTxn(x) =>
        var p := new OrderStatusProcedure(adapter, x);
        ok := p.Execute();
      case StockLevelTxn(x) =>
        var p := new StockLevelProcedure(adapter, x);
        ok := p.Execute();
    }

    /** Runs the transaction on its key list. An abort returns before anything is applied. */
    method Execute(txn: Txn, keys: seq<Entry>) returns (ok: bool, ghost index: map<Bytes, nat>)
      requires Distinct(keys)
      modifies storage
      ensures Inverse(keys, index)
      ensures var (a, done) := Executed(Real(CellsOf(keys, index), [], []), txn);
        && ok == done
        && (!ok ==> storage.data == old(storage.data))
        && (ok ==> a.Real? && storage.data == ApplyAt(old(storage.data), local, a.cells, a.deleted))
    {
      hide Executed, CellsOf, ApplyAt;
      var served := new TxnStorageAdapter(keys);
      var adapter := new StorageAdapter.Serving(served);
      index := served.index;
      ok := RunProcedure(txn, adapter);
      if ok { ApplyWrites(served.keys, served.deleted, served.index); }
    }
  }

  /** The key list holds the declared keys with the values of the database. */
  ghost predicate Lists(keys: seq<Entry>, db: Db, declared: map<Bytes, bool>) {
    && (forall e :: e in keys ==> e.key in declared && e == Entry(e.key, declared[e.key], Value(db, e.key), []))
    && (forall k :: k in declared ==> exists e :: e in keys && e.key == k)
  }

  lemma ListsLoad(keys: seq<Entry>, index: map<Bytes, nat>, db: Db, declared: map<Bytes, bool>)
    requires Lists(keys, db, declared) && Inverse(keys, index)
    ensures CellsOf(keys, index) == Load(db, declared)
  {
    forall k ensures k in index <==> k in declared {
      if k in index { assert keys[index[k]] in keys; }
      if k in declared {
        var e :| e in keys && e.key == k;
        var i :| 0 <= i < |keys| && keys[i] == e;
      }
    }
    forall k | k in index ensures ToCell(keys[index[k]]) == Cell(declared[k], Value(db, k), []) {
      assert keys[index[k]] in keys;
    }
  }

  /** When all partitions have executed a transaction on its declared keys, the database as a
      whole is what RunTxn says. */
  lemma ExecutionsAreRun(db: Db, txn: Txn, keys: seq<Entry>, index: map<Bytes, nat>, part: Bytes -> nat, p: nat)
    requires Lists(keys, db, DeclaredKeys(txn)) && Inverse(keys, index) && p > 0 && forall k :: part(k) < p
    ensures var (a, ok) := Executed(Real(CellsOf(keys, index), [], []), txn);
      && a.Real? && RunTxn(db, txn).1 == ok
      && RunTxn(db, txn).0 == if ok then ApplyPartitions(db, part, a.cells, a.deleted, p) else db
  {
    hide Executed, DeclaredKeys, Load, Apply, CellsOf, ReadCalls, WriteCalls;
    ListsLoad(keys, index, db, DeclaredKeys(txn));
    ExecutedCalls(Real(CellsOf(keys, index), [], []), txn);
    var a := Executed(Real(CellsOf(keys, index), [], []), txn).0;
    PartitionsApplyAll(db, part, a.cells, a.deleted, p);
  }

  lemma ArgsFit(x: PaymentArgs)
    ensures Wrap(4, x.w) == x.w && Wrap(1, x.d) == x.d && Wrap(4, x.cw) == x.cw && Wrap(1, x.cd) == x.cd
    ensures Wrap(4, x.c) == x.c && Wrap(4, x.amount) == x.amount && Wrap(4, x.h) == x.h
  {
    hide Wrap, Fits;
    WrapFits(4, x.w);
    WrapFits(1, x.d);
    WrapFits(4, x.cw);
    WrapFits(1, x.cd);
    WrapFits(4, x.c);
    WrapFits(4, x.amount);
    WrapFits(4, x.h);
  }

  /** The workload's run: the procedure reads and writes through the collecting adapter, and the
      list of what was asked for goes into the transaction. */
  method GenerateKeys(txn: Txn) returns (keys: seq<Entry>)
    ensures Distinct(keys)
    ensures forall e :: e in keys ==> e.key in DeclaredKeys(txn) && e == Entry(e.key, DeclaredKeys(txn)[e.key], [], [])
    ensures forall k :: k in DeclaredKeys(txn) ==> exists e :: e in keys && e.key == k
  {
    hide Generate;
    var gen := new TxnKeyGenStorageAdapter();
    var adapter := new StorageAdapter.Collecting(gen);
    CollectThrough(txn, adapter);
    assert gen.index == DeclaredKeys(txn);
    keys := gen.Finalize();
    assert gen.index == DeclaredKeys(txn);
  }

  method CollectThrough(txn: Txn, adapter: StorageAdapter)
    requires adapter.Valid() && adapter.View() == Blank()
    modifies adapter.Objects()
    ensures adapter.Valid() && adapter.View() == Generate(txn)
  {
    hide NewOrderRead, NewOrderWrite, PaymentRead, PaymentWrite, DeliverRead, DeliverWrite, StatusRead, LevelRead;
    match txn
    case NewOrderTxn(x) =>
      var p := new NewOrderProcedure(adapter, x);
      var _ := p.Read();
      var _ := p.Write();
    case PaymentTxn(x) =>
      var p := new PaymentProcedure(adapter, x.w, x.d, x.cw, x.cd, x.c, x.amount, x.datetime, x.h);
      ArgsFit(x);
      var _ := p.Read();
      var _ := p.Write();
    case DeliverTxn(x) =>
      var p := new DeliverProcedure(adapter, x);
      p.Read();
      p.Write();
    case OrderStatusTxn(x) =>
      var p := new OrderStatusProcedure(adapter, x);
      var _ := p.Execute();
    case StockLevelTxn(x) =>
      var p := new StockLevelProcedure(adapter, x);
      var _ := p.Execute();
  }
}
