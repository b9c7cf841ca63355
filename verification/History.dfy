/** The successive contents of one namespace's key file, and what holds of every serial history of them. */
module History {
  import opened Text
  import opened KeyList

  /** after is before plus one record, whose label was free, trimmed and valid. */
  predicate Appends(e: Primitives, before: seq<Key>, after: seq<Key>, k: Key) {
    && after == before + [k]
    && LabelFree(e, before, k.keyLabel) && Trimmed(k.keyLabel) && ValidLabel(k.keyLabel)
  }

  /** after is before minus every record with an ID that was there. */
  predicate Removes(before: seq<Key>, after: seq<Key>, id: string) {
    HasId(before, id) && after == Without(before, id)
  }

  ghost predicate SerialStep(e: Primitives, before: seq<Key>, after: seq<Key>) {
    || (exists k :: Appends(e, before, after, k))
    || (exists id :: Removes(before, after, id))
  }

  /** The first version is empty and every later one is its predecessor plus one record or minus one ID. */
  ghost predicate Serial(e: Primitives, h: seq<seq<Key>>) {
    && (h != [] ==> h[0] == [])
    && forall i :: 0 < i < |h| ==> SerialStep(e, h[i - 1], h[i])
  }

  ghost predicate IssuedAt(e: Primitives, h: seq<seq<Key>>, i: int, k: Key) {
    0 < i < |h| && Appends(e, h[i - 1], h[i], k)
  }

  ghost predicate RevokedAt(h: seq<seq<Key>>, i: int, id: string) {
    0 < i < |h| && Removes(h[i - 1], h[i], id)
  }

  /** The labels of every version are trimmed, valid and pairwise different up to case. */
  lemma {:induction false} LabelsWellFormed(e: Primitives, h: seq<seq<Key>>, i: nat)
    requires Serial(e, h) && i < |h|
    ensures LabelsDistinct(e, h[i]) && LabelsValid(h[i])
  {
    if i > 0 {
      LabelsWellFormed(e, h, i - 1);
      var before, after := h[i - 1], h[i];
      assert SerialStep(e, before, after);
      if k :| Appends(e, before, after, k) {
      } else {
        var id :| Removes(before, after, id);
        WithoutLabels(e, h[i - 1], id);
        WithoutMembers(h[i - 1], id);
      }
    }
  }

  /** A record leaves the list only through the revocation of its ID. */
  lemma {:induction false} StaysUntilRevoked(e: Primitives, h: seq<seq<Key>>, a: nat, b: nat, k: Key)
    requires Serial(e, h) && a <= b < |h| && k in h[a]
    requires forall r :: a < r <= b ==> !RevokedAt(h, r, k.id)
    ensures k in h[b]
    decreases b
  {
    if a < b {
      StaysUntilRevoked(e, h, a, b - 1, k);
      var before, after := h[b - 1], h[b];
      assert SerialStep(e, before, after);
      if id :| Removes(before, after, id) {
        assert !RevokedAt(h, b, k.id);
        WithoutMembers(h[b - 1], id);
      }
    }
  }

  /** Between two issues under labels that are equal up to case, the first key was revoked. */
  lemma SameLabelNeedsRevocation(e: Primitives, h: seq<seq<Key>>, a: nat, b: nat, k: Key, k': Key)
    requires Serial(e, h) && a < b && IssuedAt(e, h, a, k) && IssuedAt(e, h, b, k')
    requires e.fold(k.keyLabel) == e.fold(k'.keyLabel)
    ensures exists r :: a < r < b && RevokedAt(h, r, k.id)
  {
    if forall r :: a < r < b ==> !RevokedAt(h, r, k.id) {
      StaysUntilRevoked(e, h, a, b - 1, k);
      assert false;
    }
  }

  /** Once an ID has been revoked, every token that carries it is rejected until the ID is issued again. */
  lemma {:induction false} RejectedAfterRevocation(e: Primitives, h: seq<seq<Key>>, r: nat, at: nat, id: string, token: string)
    requires Serial(e, h) && r <= at < |h| && RevokedAt(h, r, id)
    requires forall i, k :: r < i <= at && IssuedAt(e, h, i, k) ==> k.id != id
    ensures !HasId(h[at], id)
    ensures Verdict(e, h[at], id, token) == None
    decreases at
  {
    if r == at {
      WithoutMembers(h[r - 1], id);
    } else {
      RejectedAfterRevocation(e, h, r, at - 1, id, token);
      var before, after := h[at - 1], h[at];
      assert SerialStep(e, before, after);
      if k :| Appends(e, before, after, k) {
        assert IssuedAt(e, h, at, k);
      } else {
        var other :| Removes(before, after, other);
        WithoutMembers(h[at - 1], other);
      }
    }
  }

  /** A key with a fresh ID stays the one its ID finds until it is revoked. */
  lemma {:induction false} FoundUntilRevoked(e: Primitives, h: seq<seq<Key>>, i: nat, at: nat, k: Key)
    requires Serial(e, h) && i <= at < |h| && IssuedAt(e, h, i, k) && !HasId(h[i - 1], k.id)
    requires forall r :: i < r <= at ==> !RevokedAt(h, r, k.id)
    ensures Lookup(h[at], k.id) == Some(k)
    decreases at
  {
    if i == at {
      LookupAppend(h[i - 1], k, k.id);
    } else {
      FoundUntilRevoked(e, h, i, at - 1, k);
      var before, after := h[at - 1], h[at];
      assert SerialStep(e, before, after);
      if k' :| Appends(e, before, after, k') {
        LookupAppend(h[at - 1], k', k.id);
      } else {
        var id :| Removes(before, after, id);
        assert !RevokedAt(h, at, k.id);
        LookupWithout(h[at - 1], id, k.id);
      }
    }
  }

  /** With fresh IDs, an issued token is accepted by exactly the versions from its issue up to its revocation. */
  lemma AcceptedUntilRevoked(e: Primitives, h: seq<seq<Key>>, i: nat, at: nat, k: Key, token: string)
    requires Serial(e, h) && i <= at < |h| && IssuedAt(e, h, i, k) && Matches(e, k, token)
    requires !HasId(h[i - 1], k.id)
    requires forall j, k' :: i < j <= at && IssuedAt(e, h, j, k') ==> k'.id != k.id
    ensures Verdict(e, h[at], k.id, token) ==
            if exists r :: i < r <= at && RevokedAt(h, r, k.id) then None else Some(k.(digest := ""))
  {
    if r :| i < r <= at && RevokedAt(h, r, k.id) {
      RejectedAfterRevocation(e, h, r, at, k.id, token);
    } else {
      FoundUntilRevoked(e, h, i, at, k);
    }
  }
}
