/** The coordinating server of module/server.cpp: it collects the finished pieces of each
    transaction and answers the client when the last one is in. */
module Servers {
  import opened Prelude
  import opened Transactions
  import opened TxnSplit

  /** FinishedTransaction: how many pieces are missing and what has been merged. */
  datatype Agg = Agg(remaining: int, merged: Option<Txn>)

  /** `answers` is what the clients have been sent. */
  datatype State = State(pending: set<nat>, finished: map<nat, Agg>, answers: seq<Txn>)

  /** AddSubTxn */
  ghost function AddPiece(agg: Agg, piece: Piece): Result<Agg> {
    if agg.merged.None? then Success(Agg(agg.remaining - 1, Some(piece.txn.(partitions := [piece.part]))))
    else
      var r := Merge(agg.merged.value, piece.txn);
      if r.Failure? then Failure(r.error)
      else Success(Agg(agg.remaining - 1, Some(r.value.(partitions := r.value.partitions + [piece.part]))))
  }

  /** ProcessFinishedSubtxn */
  ghost function OnPiece(s: State, piece: Piece): Result<State> {
    var id := piece.txn.id;
    if id !in s.pending then Success(s)
    else
      var agg := if id in s.finished then s.finished[id] else Agg(|piece.txn.partitions|, None);
      var r := AddPiece(agg, piece);
      if r.Failure? then Failure(r.error)
      else if r.value.remaining == 0 && r.value.merged.Some? then
        Success(State(s.pending - {id}, s.finished - {id}, s.answers + [r.value.merged.value]))
      else Success(s.(finished := s.finished[id := r.value]))
  }

  /** A piece is refused exactly if its transaction is waiting and what has come of it so far has
      another id or type. */
  lemma RefusedIff(s: State, piece: Piece)
    ensures OnPiece(s, piece).Failure? <==> var id := piece.txn.id;
      && id in s.pending && id in s.finished && s.finished[id].merged.Some?
      && var t := s.finished[id].merged.value; t.id != id || t.kind != piece.txn.kind
  {
    hide Merged;
  }

  ghost function Exec(s: State, arrivals: seq<Piece>): Result<State> {
    if arrivals == [] then Success(s)
    else
      var r := Exec(s, arrivals[..|arrivals| - 1]);
      if r.Failure? then r else OnPiece(r.value, arrivals[|arrivals| - 1])
  }

  /** The arrivals that belong to one transaction, and its answers. */
  function Of(arrivals: seq<Piece>, id: nat): (r: seq<Piece>)
    ensures forall x :: x in r <==> x in arrivals && x.txn.id == id
  {
    if arrivals == [] then []
    else
      var x := arrivals[|arrivals| - 1];
      assert arrivals == arrivals[..|arrivals| - 1] + [x];
      Of(arrivals[..|arrivals| - 1], id) + if x.txn.id == id then [x] else []
  }

  function AnswersTo(answers: seq<Txn>, id: nat): seq<Txn> {
    if answers == [] then []
    else AnswersTo(answers[..|answers| - 1], id) + if answers[|answers| - 1].id == id then [answers[|answers| - 1]]
      else []
  }

  lemma AnswersPush(answers: seq<Txn>, t: Txn, id: nat)
    ensures AnswersTo(answers + [t], id) == AnswersTo(answers, id) + if t.id == id then [t] else []
  {
    assert (answers + [t])[..|answers|] == answers;
  }

  /** How many pieces the first one announces. */
  function Expected(pieces: seq<Piece>): nat {
    if pieces == [] then 0 else |pieces[0].txn.partitions|
  }

  /** Where the server stands with a transaction once these pieces have arrived. */
  ghost predicate Tracks(s: State, id: nat, pieces: seq<Piece>) {
    var n := Expected(pieces);
    if pieces == [] then id in s.pending && id !in s.finished && AnswersTo(s.answers, id) == []
    else if n == 0 || |pieces| < n then
      && id in s.pending && AnswersTo(s.answers, id) == []
      && id in s.finished && s.finished[id] == Agg(n - |pieces|, Some(MergeAll(pieces)))
    else id !in s.pending && id !in s.finished && AnswersTo(s.answers, id) == [MergeAll(pieces[..n])]
  }

  lemma MergePush(pieces: seq<Piece>, p: Piece)
    requires pieces != []
    ensures MergeAll(pieces + [p]) ==
      var t := Merged(MergeAll(pieces), p.txn); t.(partitions := t.partitions + [p.part])
  {
    assert (pieces + [p])[..|pieces|] == pieces;
  }

  /** A piece of this transaction is merged, and the last one answered. */
  lemma TracksOwn(s: State, id: nat, kind: Kind, pieces: seq<Piece>, p: Piece)
    requires Tracks(s, id, pieces) && SameTxn(id, kind, pieces + [p])
    ensures OnPiece(s, p).Success? && Tracks(OnPiece(s, p).value, id, pieces + [p])
  {
    hide MergeAll, Merged;
    var all := pieces + [p];
    assert forall i :: 0 <= i < |pieces| ==> pieces[i] == all[i];
    assert all[|pieces|] == p;
    assert Expected(all) == if pieces == [] then |p.txn.partitions| else Expected(pieces);
    if pieces == [] {
      MergeFirst(all);
    } else {
      MergeIdentity(id, kind, pieces);
      MergePush(pieces, p);
    }
    MergeIdentity(id, kind, all);
    AnswersPush(s.answers, MergeAll(all), id);
    var n := Expected(all);
    assert n <= |pieces| ==> all[..n] == pieces[..n];
    assert n == |all| ==> all[..n] == all;
  }

  /** What a piece does to the records of other transactions: at most one answer, to its own. */
  lemma OnPieceOthers(s: State, p: Piece, kind: Kind, others: seq<Piece>, id: nat)
    requires p.txn.id != id
    requires p.txn.id in s.pending ==> Tracks(s, p.txn.id, others) && SameTxn(p.txn.id, kind, others + [p])
    ensures OnPiece(s, p).Success? ==> var s' := OnPiece(s, p).value;
      && (id in s'.pending <==> id in s.pending) && (id in s'.finished <==> id in s.finished)
      && (id in s.finished ==> s'.finished[id] == s.finished[id])
      && AnswersTo(s'.answers, id) == AnswersTo(s.answers, id)
  {
    hide MergeAll, Merged, AnswersTo;
    if p.txn.id in s.pending && others != [] {
      assert forall i :: 0 <= i < |others| ==> others[i] == (others + [p])[i];
      MergeIdentity(p.txn.id, kind, others);
      MergedId(MergeAll(others), p.txn);
    }
    if OnPiece(s, p).Success? {
      var s' := OnPiece(s, p).value;
      if |s'.answers| > |s.answers| { AnswersPush(s.answers, s'.answers[|s.answers|], id); }
    }
  }

  /** A piece of another transaction, itself tracked, changes nothing for this one. */
  lemma TracksOther(s: State, id: nat, pieces: seq<Piece>, p: Piece, kind: Kind, others: seq<Piece>)
    requires Tracks(s, id, pieces) && p.txn.id != id
    requires p.txn.id in s.pending ==> Tracks(s, p.txn.id, others) && SameTxn(p.txn.id, kind, others + [p])
    ensures OnPiece(s, p).Success? ==> Tracks(OnPiece(s, p).value, id, pieces)
  {
    hide MergeAll, OnPiece, AnswersTo;
    OnPieceOthers(s, p, kind, others, id);
  }

  lemma MergedId(t: Txn, other: Txn)
    ensures Merged(t, other).id == t.id
  {
  }

  /** Pieces of one transaction have one type. */
  ghost predicate Consistent(kind: nat -> Kind, arrivals: seq<Piece>) {
    forall i :: 0 <= i < |arrivals| ==> arrivals[i].txn.kind == kind(arrivals[i].txn.id)
  }

  lemma OfSame(kind: nat -> Kind, arrivals: seq<Piece>, id: nat)
    requires Consistent(kind, arrivals)
    ensures SameTxn(id, kind(id), Of(arrivals, id))
  {
    var mine := Of(arrivals, id);
    forall i | 0 <= i < |mine| ensures mine[i].txn.id == id && mine[i].txn.kind == kind(id) {
      assert mine[i] in mine && mine[i] in arrivals;
    }
  }

  function Start(pending: set<nat>): State {
    State(pending, map[], [])
  }

  lemma OnOther(s: State, p: Piece)
    ensures p.txn.id !in s.pending ==> OnPiece(s, p) == Success(s)
    ensures OnPiece(s, p).Success? ==> OnPiece(s, p).value.pending <= s.pending
  {
  }

  ghost predicate AllTracked(s: State, pending: set<nat>, arrivals: seq<Piece>) {
    && s.pending <= pending
    && (forall id :: id in pending ==> Tracks(s, id, Of(arrivals, id)))
    && (forall id :: id !in pending ==> AnswersTo(s.answers, id) == [])
  }

  lemma OfPush(arrivals: seq<Piece>, p: Piece, id: nat)
    ensures Of(arrivals + [p], id) == if p.txn.id == id then Of(arrivals, id) + [p] else Of(arrivals, id)
  {
    assert (arrivals + [p])[..|arrivals|] == arrivals;
  }

  lemma AllTrackedStep(kind: nat -> Kind, s: State, pending: set<nat>, arrivals: seq<Piece>, p: Piece)
    requires AllTracked(s, pending, arrivals) && Consistent(kind, arrivals + [p])
    ensures OnPiece(s, p).Success? && AllTracked(OnPiece(s, p).value, pending, arrivals + [p])
  {
    hide Tracks, OnPiece, Of, AnswersTo, SameTxn;
    var x, all := p.txn.id, arrivals + [p];
    OfSame(kind, all, x);
    OfPush(arrivals, p, x);
    OnOther(s, p);
    if x in pending { TracksOwn(s, x, kind(x), Of(arrivals, x), p); }
    forall id | id in pending && id != x ensures Tracks(OnPiece(s, p).value, id, Of(all, id)) {
      OfPush(arrivals, p, id);
      TracksOther(s, id, Of(arrivals, id), p, kind(x), Of(arrivals, x));
    }
    forall id | id !in pending ensures AnswersTo(OnPiece(s, p).value.answers, id) == [] {
      if id != x { OnPieceOthers(s, p, kind(x), Of(arrivals, x), id); }
    }
  }

  /** However the pieces of all transactions interleave, nothing fails, a transaction is
      answered exactly once, when the announced number of its pieces is in, with their merge in
      the order of arrival, and later pieces are ignored. */
  lemma {:induction false} AnswersOnce(kind: nat -> Kind, pending: set<nat>, arrivals: seq<Piece>)
    requires Consistent(kind, arrivals)
    ensures Exec(Start(pending), arrivals).Success? &&
      AllTracked(Exec(Start(pending), arrivals).value, pending, arrivals)
  {
    if arrivals != [] {
      hide AllTracked, OnPiece;
      var before, p := arrivals[..|arrivals| - 1], arrivals[|arrivals| - 1];
      AnswersOnce(kind, pending, before);
      assert arrivals == before + [p];
      AllTrackedStep(kind, Exec(Start(pending), before).value, pending, before, p);
    }
  }

  /** A transaction split over its partitions is answered once, on its last piece, and the
      answer restores its regions and, unless a piece was aborted, its keys less the deleted. */
  lemma SplitIsAnswered(sh: Sharder, txn: Txn, kind: nat -> Kind, pending: set<nat>, runs: seq<Run>,
      arrivals: seq<Piece>)
    requires Populated(sh, txn) && !txn.remaster && Consistent(kind, arrivals) && txn.id in pending
    requires AllPiecesOf(sh, txn, runs, Of(arrivals, txn.id)) && Of(arrivals, txn.id) != []
    ensures Exec(Start(pending), arrivals).Success?
    ensures var s, pieces := Exec(Start(pending), arrivals).value, Of(arrivals, txn.id);
      && |AnswersTo(s.answers, txn.id)| == 1
      && (arrivals[|arrivals| - 1].txn.id == txn.id ==>
        AnswersTo(Exec(Start(pending), arrivals[..|arrivals| - 1]).value.answers, txn.id) == [])
      && var t := AnswersTo(s.answers, txn.id)[0];
        && t.regions == txn.regions && (t.status.Aborted? <==> SomeAborted(pieces))
        && (!SomeAborted(pieces) ==> forall k ::
              Count(t.keys, k) == if KeptBySome(sh, runs, pieces, k) then Count(txn.keys, k) else 0)
  {
    hide Exec, Of, MergeAll, Populated, Count, AnswersTo, PieceOf;
    var pieces := Of(arrivals, txn.id);
    AnswersOnce(kind, pending, arrivals);
    PieceParts(sh, txn, runs[0], pieces[0]);
    assert pieces[..|pieces|] == pieces;
    SplitMerge(sh, txn, runs, pieces);
    var before, p := arrivals[..|arrivals| - 1], arrivals[|arrivals| - 1];
    assert arrivals == before + [p];
    OfPush(before, p, txn.id);
    AnswersOnce(kind, pending, before);
    if p.txn.id == txn.id {
      var mine := Of(before, txn.id);
      assert mine != [] ==> mine[0] == pieces[0];
      assert Tracks(Exec(Start(pending), before).value, txn.id, mine);
    }
  }

  lemma PieceParts(sh: Sharder, txn: Txn, run: Run, piece: Piece)
    requires PieceOf(sh, txn, run, piece)
    ensures piece.txn.partitions == txn.partitions
  {
  }
}

/** The server object. The records of partly finished transactions are values of its map. */
module ServerObjects {
  import opened Prelude
  import opened TxnSplit
  import TxnSplitMethods
  import opened Servers
  import Ids

  method AddSubTxn(agg: Agg, piece: Piece) returns (r: Result<Agg>, last: bool)
    ensures r == AddPiece(agg, piece) && last == (r.Success? && r.value.remaining == 0)
  {
    hide Merged;
    var remaining := agg.remaining - 1;
    if agg.merged.None? {
      r := Success(Agg(remaining, Some(piece.txn.(partitions := [piece.part]))));
    } else {
      var merged := TxnSplitMethods.MergeTransaction(agg.merged.value, piece.txn);
      if merged.Failure? { return Failure(merged.error), false; }
      r := Success(Agg(remaining, Some(merged.value.(partitions := merged.value.partitions + [piece.part]))));
    }
    last := remaining == 0;
  }

  class Server {
    const machine: Ids.Machine
    var counter: nat
    var pending: set<nat>
    var finished: map<nat, Agg>
    ghost var answers: seq<Txn>

    constructor (machine: Ids.Machine)
      ensures View() == Start({}) && counter == 0 && this.machine == machine
    {
      this.machine, counter, pending, finished, answers := machine, 0, {}, map[], [];
    }

    ghost function View(): State
      reads this
    {
      State(pending, finished, answers)
    }

    method NextTxnId() returns (id: nat)
      modifies this`counter
      ensures counter == old(counter) + 1 && id == Ids.Tagged(machine, counter)
    {
      counter := counter + 1;
      id := Ids.Tagged(machine, counter);
    }

    /** Returns the answer to send, or the error a mismatched piece raises. */
    method ProcessFinishedSubtxn(piece: Piece) returns (r: Result<Option<Txn>>)
      modifies this`pending, this`finished, this`answers
      ensures r.Success? <==> OnPiece(old(View()), piece).Success?
      ensures r.Success? ==> View() == OnPiece(old(View()), piece).value
      ensures r.Success? ==> answers == old(answers) + if r.value.Some? then [r.value.value] else []
      ensures r.Failure? ==> View() == old(View()) && r.error == OnPiece(old(View()), piece).error
    {
      var id := piece.txn.id;
      if id !in pending { return Success(None); }
      var agg := if id in finished then finished[id] else Agg(|piece.txn.partitions|, None);
      var added, last := AddSubTxn(agg, piece);
      if added.Failure? { return Failure(added.error); }
      if last {
        pending, finished, answers := pending - {id}, finished - {id}, answers + [added.value.merged.value];
        r := Success(added.value.merged);
      } else {
        finished := finished[id := added.value];
        r := Success(None);
      }
    }
  }
}
