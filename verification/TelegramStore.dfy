/**
 * `TelegramUpdateStore`: each update is claimed at most once, across restarts
 * and although finished rows are pruned.
 */
module TelegramStores {
  import opened Basics

  datatype UpdateState = Claimed | Handled | Failed | Uncertain

  const MAX_ID: int := 0x7FFF_FFFF_FFFF_FFFF

  datatype Claim = Taken | NotTaken | OutOfRange

  predicate Increasing(ids: seq<int>) {
    forall i, j :: 0 <= i < j < |ids| ==> ids[i] < ids[j]
  }

  /** Increasing claims never repeat an update. */
  lemma ClaimedOnce(ids: seq<int>, id: int)
    requires Increasing(ids)
    ensures multiset(ids)[id] <= 1
  {
    if ids != [] {
      var front, last := ids[..|ids| - 1], ids[|ids| - 1];
      assert ids == front + [last];
      ClaimedOnce(front, id);
      if id == last {
        assert id !in front;
      }
    }
  }

  datatype Update = Update(id: int, state: UpdateState)

  /** The table in the order of its primary key. */
  predicate Ordered(rows: seq<Update>) {
    forall i, j :: 0 <= i < j < |rows| ==> rows[i].id < rows[j].id
  }

  predicate Held(rows: seq<Update>, u: Update) {
    u in rows
  }

  function FinishedCount(rows: seq<Update>): nat {
    if rows == [] then 0 else FinishedCount(rows[..|rows| - 1]) + (if rows[|rows| - 1].state.Claimed? then 0 else 1)
  }

  /** The table once the finished rows beyond the newest `limit` are deleted. */
  function Kept(rows: seq<Update>, limit: nat): (k: seq<Update>)
    ensures |k| <= |rows|
  {
    if rows == [] then []
    else
      var last := rows[|rows| - 1];
      if last.state.Claimed? then Kept(rows[..|rows| - 1], limit) + [last]
      else if limit > 0 then Kept(rows[..|rows| - 1], limit - 1) + [last]
      else Kept(rows[..|rows| - 1], 0)
  }

  lemma {:induction false} KeptIsPart(rows: seq<Update>, limit: nat)
    requires Ordered(rows)
    ensures Ordered(Kept(rows, limit))
    ensures forall u :: Held(Kept(rows, limit), u) ==> Held(rows, u)
    ensures forall u :: Held(rows, u) && u.state.Claimed? ==> Held(Kept(rows, limit), u)
  {
    if rows != [] {
      var front := rows[..|rows| - 1];
      assert rows == front + [rows[|rows| - 1]];
      KeptIsPart(front, limit);
      if limit > 0 {
        KeptIsPart(front, limit - 1);
      }
      KeptIsPart(front, 0);
    }
  }

  lemma {:induction false} KeptCount(rows: seq<Update>, limit: nat)
    ensures FinishedCount(Kept(rows, limit)) == if FinishedCount(rows) < limit then FinishedCount(rows) else limit
  {
    if rows != [] {
      var front, last := rows[..|rows| - 1], rows[|rows| - 1];
      var rest := if last.state.Claimed? then limit else if limit > 0 then limit - 1 else 0;
      KeptCount(front, rest);
      assert (Kept(front, rest) + [last])[..|Kept(front, rest)|] == Kept(front, rest);
    }
  }

  /** A finished row that is deleted is older than every finished row that is kept. */
  lemma {:induction false} KeptAreNewest(rows: seq<Update>, limit: nat, k: Update, d: Update)
    requires Ordered(rows) && Held(rows, d) && !Held(Kept(rows, limit), d)
    requires Held(Kept(rows, limit), k) && !k.state.Claimed? && !d.state.Claimed?
    ensures d.id < k.id
  {
    var front, last := rows[..|rows| - 1], rows[|rows| - 1];
    assert rows == front + [last];
    var rest := if last.state.Claimed? then limit else if limit > 0 then limit - 1 else 0;
    KeptIsPart(front, rest);
    if limit == 0 && !last.state.Claimed? {
      NothingKept(front);
    } else if k == last {
      assert Held(front, d);
    } else {
      KeptAreNewest(front, rest, k, d);
    }
  }

  lemma {:induction false} NothingKept(rows: seq<Update>)
    ensures forall u :: Held(Kept(rows, 0), u) ==> u.state.Claimed?
  {
    if rows != [] {
      NothingKept(rows[..|rows| - 1]);
    }
  }

  lemma KeptIds(rows: seq<Update>, limit: nat)
    requires Ordered(rows)
    ensures Ordered(Kept(rows, limit))
    ensures forall i :: 0 <= i < |Kept(rows, limit)| ==> Held(rows, Kept(rows, limit)[i])
  {
    KeptIsPart(rows, limit);
    assert forall i :: 0 <= i < |Kept(rows, limit)| ==> Held(Kept(rows, limit), Kept(rows, limit)[i]);
  }

  /** One row further down, with what was kept above it. */
  lemma KeptStep(rows: seq<Update>, room: nat, out: seq<Update>)
    requires rows != []
    ensures
      var front, last := rows[..|rows| - 1], rows[|rows| - 1];
      Kept(rows, room) + out ==
        if last.state.Claimed? then Kept(front, room) + ([last] + out)
        else if room > 0 then Kept(front, room - 1) + ([last] + out)
        else Kept(front, 0) + out
  {
  }

  class TelegramUpdateStore {
    const retention: nat
    var offset: int
    var rows: seq<Update>
    // the updates claimed so far, in order, by every process there was
    ghost var claims: seq<int>

    ghost predicate Valid()
      reads this
    {
      && retention >= 100 && 0 <= offset
      && Increasing(claims) && (forall i :: 0 <= i < |claims| ==> 0 <= claims[i] < offset)
      && Ordered(rows) && (forall i :: 0 <= i < |rows| ==> rows[i].id in claims)
    }

    /** No update was ever taken twice, by whatever process. */
    lemma NoUpdateTwice(id: int)
      requires Valid()
      ensures multiset(claims)[id] <= 1
    {
      ClaimedOnce(claims, id);
    }

    constructor (retention: int)
      ensures Valid() && claims == [] && rows == [] && offset == 0
    {
      this.retention := if retention < 100 then 100 else retention;
      offset, rows, claims := 0, [], [];
    }

    /** `_initialize` on a new process: the offset never falls, and a claim whose
        process stopped becomes uncertain, not claimable. */
    method Initialize(legacy: Option<int>) returns (ok: bool)
      requires Valid()
      modifies `offset, `rows
      ensures Valid() && claims == old(claims) && offset >= old(offset)
      ensures ok <==> legacy.None? || legacy.value >= 0
      ensures !ok ==> offset == old(offset) && rows == old(rows)
      ensures ok ==> |rows| == |old(rows)| && forall i :: 0 <= i < |rows| ==>
                       rows[i] == if old(rows)[i].state.Claimed? then Update(old(rows)[i].id, Uncertain) else old(rows)[i]
    {
      if legacy.Some? && legacy.value < 0 {
        return false;
      }
      if legacy.Some? && legacy.value > offset {
        offset := legacy.value;
      }
      rows := seq(|rows|, i requires 0 <= i < |rows| reads this =>
                    if rows[i].state.Claimed? then Update(rows[i].id, Uncertain) else rows[i]);
      return true;
    }

    /** `claim`: taken exactly when no update at or above it was claimed before. */
    method ClaimUpdate(id: int) returns (r: Claim)
      requires Valid()
      modifies `offset, `rows, `claims
      ensures Valid()
      ensures r == if !(0 <= id < MAX_ID) then OutOfRange else if id < old(offset) then NotTaken else Taken
      ensures r.Taken? ==> claims == old(claims) + [id] && offset == id + 1
                           && rows == Kept(old(rows) + [Update(id, UpdateState.Claimed)], retention)
      ensures !r.Taken? ==> claims == old(claims) && offset == old(offset) && rows == old(rows)
    {
      if !(0 <= id < MAX_ID) {
        return OutOfRange;
      }
      if id < offset {
        return NotTaken;
      }
      rows := rows + [Update(id, UpdateState.Claimed)];
      offset := if id + 1 > offset then id + 1 else offset;
      claims := claims + [id];
      Prune();
      return Taken;
    }

    /** Walks the table from the newest row down. */
    method Prune()
      requires Valid()
      modifies `rows
      ensures Valid() && rows == Kept(old(rows), retention)
    {
      var k, room, out := |rows|, retention, [];
      assert rows[..|rows|] == rows && Kept(rows, retention) + [] == Kept(rows, retention);
      while k > 0
        invariant 0 <= k <= |rows| && rows == old(rows)
        invariant Kept(rows, retention) == Kept(rows[..k], room) + out
        decreases k
      {
        k := k - 1;
        KeptStep(rows[..k + 1], room, out);
        assert rows[..k + 1][..k] == rows[..k];
        if rows[k].state.Claimed? {
          out := [rows[k]] + out;
        } else if room > 0 {
          out, room := [rows[k]] + out, room - 1;
        }
      }
      assert rows[..0] == [] && [] + out == out;
      KeptIds(rows, retention);
      rows := out;
    }

    /** `complete`: only a claimed row is finished, and only once. */
    method Complete(id: int, st: UpdateState) returns (ok: bool)
      requires Valid()
      modifies `rows
      ensures Valid()
      ensures ok <==> !st.Claimed? && old(Held(rows, Update(id, UpdateState.Claimed)))
      ensures ok ==> |rows| == |old(rows)| && forall i :: 0 <= i < |rows| ==>
                       rows[i] == if old(rows)[i].id == id then Update(id, st) else old(rows)[i]
      ensures !ok ==> rows == old(rows)
    {
      if st.Claimed? {
        return false;
      }
      var k := 0;
      while k < |rows|
        invariant 0 <= k <= |rows| && rows == old(rows)
        invariant forall j :: 0 <= j < k ==> rows[j] != Update(id, UpdateState.Claimed)
      {
        if rows[k] == Update(id, UpdateState.Claimed) {
          rows := rows[k := Update(id, st)];
          return true;
        }
        k := k + 1;
      }
      return false;
    }
  }
}
