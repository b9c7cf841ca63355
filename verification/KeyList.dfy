/** The key records of one namespace: the scans and updates IssueKey, RevokeKey and Authenticate
    perform on the list, and the finite map the list stands for. */
module KeyList {
  import opened Text
  import opened Token

  datatype Key = Key(id: string, keyLabel: string, digest: string, createdAt: int)

  /** SHA-256 and Unicode simple case folding are parameters: nothing below depends on what they
      compute, only on their being functions. Two labels are EqualFold when their folds agree. */
  datatype Primitives = Primitives(sha256: string -> Digest, fold: string -> string)

  type Digest = d: seq<byte> | |d| == 32 witness seq(32, i => 0)

  // ---- Duplicate labels ----

  predicate LabelFree(e: Primitives, keys: seq<Key>, keyLabel: string) {
    forall k :: k in keys ==> e.fold(k.keyLabel) != e.fold(keyLabel)
  }

  method HasLabel(e: Primitives, keys: seq<Key>, keyLabel: string) returns (found: bool)
    ensures found <==> !LabelFree(e, keys, keyLabel)
  {
    for i := 0 to |keys|
      invariant forall j :: 0 <= j < i ==> e.fold(keys[j].keyLabel) != e.fold(keyLabel)
    {
      if e.fold(keys[i].keyLabel) == e.fold(keyLabel) {
        return true;
      }
    }
    return false;
  }

  /** validateLabel, on a label that has been trimmed. */
  predicate ValidLabel(keyLabel: string) {
    |keyLabel| > 0 && ByteLen(keyLabel) <= 120 && forall c :: c in keyLabel ==> !IsControl(c)
  }

  /** The limits of a label: 120 bytes, and none of the two blocks of control characters. */
  lemma ValidLabelMeaning(keyLabel: string)
    ensures ValidLabel(keyLabel) <==>
            && 1 <= |keyLabel| && ByteLen(keyLabel) <= 120
            && forall c :: c in keyLabel ==> c as int >= 32 && (c as int < 127 || c as int >= 160)
  {
  }

  ghost predicate LabelsDistinct(e: Primitives, keys: seq<Key>) {
    forall i, j :: 0 <= i < j < |keys| ==> e.fold(keys[i].keyLabel) != e.fold(keys[j].keyLabel)
  }

  ghost predicate LabelsValid(keys: seq<Key>) {
    forall k :: k in keys ==> Trimmed(k.keyLabel) && ValidLabel(k.keyLabel)
  }

  // ---- Revocation ----

  /** The records whose ID is not id, in their old order. */
  function Without(keys: seq<Key>, id: string): seq<Key> {
    if keys == [] then []
    else
      var k := keys[|keys| - 1];
      Without(keys[..|keys| - 1], id) + if k.id == id then [] else [k]
  }

  predicate HasId(keys: seq<Key>, id: string) {
    exists k :: k in keys && k.id == id
  }

  method Filter(keys: seq<Key>, id: string) returns (filtered: seq<Key>, found: bool)
    ensures filtered == Without(keys, id)
    ensures found <==> HasId(keys, id)
  {
    filtered, found := [], false;
    for i := 0 to |keys|
      invariant filtered == Without(keys[..i], id)
      invariant found <==> HasId(keys[..i], id)
    {
      assert keys[..i + 1][..i] == keys[..i];
      assert keys[..i + 1] == keys[..i] + [keys[i]];
      if keys[i].id == id {
        found := true;
        assert keys[i] in keys[..i + 1];
      } else {
        filtered := filtered + [keys[i]];
      }
    }
    assert keys[..|keys|] == keys;
  }

  lemma WithoutMembers(keys: seq<Key>, id: string)
    ensures forall k :: k in Without(keys, id) <==> k in keys && k.id != id
    ensures !HasId(keys, id) ==> Without(keys, id) == keys
  {
    if keys != [] {
      var n := |keys| - 1;
      WithoutMembers(keys[..n], id);
      assert keys == keys[..n] + [keys[n]];
      if !HasId(keys, id) {
        assert !HasId(keys[..n], id);
      }
    }
  }

  /** The positions of the records that stay. */
  ghost function Kept(keys: seq<Key>, id: string): seq<nat> {
    if keys == [] then []
    else
      var n := |keys| - 1;
      Kept(keys[..n], id) + if keys[n].id == id then [] else [n]
  }

  lemma {:induction false} KeptSpec(keys: seq<Key>, id: string)
    ensures forall j :: 0 <= j < |Kept(keys, id)| ==> Kept(keys, id)[j] < |keys|
    ensures forall i, j :: 0 <= i < j < |Kept(keys, id)| ==> Kept(keys, id)[i] < Kept(keys, id)[j]
    ensures forall i :: 0 <= i < |keys| ==> (i in Kept(keys, id) <==> keys[i].id != id)
    decreases |keys|
  {
    if keys != [] {
      var n := |keys| - 1;
      var init := keys[..n];
      KeptSpec(init, id);
      assert forall i :: 0 <= i < n ==> keys[i] == init[i];
    }
  }

  lemma {:induction false} WithoutIsKept(keys: seq<Key>, id: string)
    ensures |Without(keys, id)| == |Kept(keys, id)|
    ensures forall j :: 0 <= j < |Kept(keys, id)| ==>
              Kept(keys, id)[j] < |keys| && Without(keys, id)[j] == keys[Kept(keys, id)[j]]
    decreases |keys|
  {
    if keys != [] {
      var n := |keys| - 1;
      var init := keys[..n];
      WithoutIsKept(init, id);
      var kept := Kept(init, id);
      assert forall j :: 0 <= j < |kept| ==> init[kept[j]] == keys[kept[j]];
    }
  }

  /** Revocation removes every record with the ID, keeps every other one, and keeps their order. */
  lemma {:induction false} WithoutKeepsOrder(keys: seq<Key>, id: string)
    ensures var kept := Kept(keys, id);
            && |Without(keys, id)| == |kept|
            && (forall j :: 0 <= j < |kept| ==> kept[j] < |keys| && Without(keys, id)[j] == keys[kept[j]])
            && (forall i, j :: 0 <= i < j < |kept| ==> kept[i] < kept[j])
            && (forall i :: 0 <= i < |keys| ==> (i in kept <==> keys[i].id != id))
  {
    KeptSpec(keys, id);
    WithoutIsKept(keys, id);
  }

  lemma WithoutLabels(e: Primitives, keys: seq<Key>, id: string)
    requires LabelsDistinct(e, keys)
    ensures LabelsDistinct(e, Without(keys, id))
  {
    WithoutKeepsOrder(keys, id);
  }

  // ---- Authentication ----

  /** The first record with the ID. */
  function Lookup(keys: seq<Key>, id: string): (r: Option<Key>)
    ensures r.Some? ==> r.value in keys && r.value.id == id
    ensures r.None? <==> !HasId(keys, id)
  {
    if keys == [] then None
    else if keys[0].id == id then Some(keys[0])
    else
      assert HasId(keys, id) ==> HasId(keys[1..], id) by {
        assert keys == [keys[0]] + keys[1..];
      }
      Lookup(keys[1..], id)
  }

  /** What Authenticate answers once it has read the list: the record, without its digest. */
  function Verdict(e: Primitives, keys: seq<Key>, id: string, token: string): Option<Key> {
    match Lookup(keys, id)
    case None => None
    case Some(k) => if HexDecode(k.digest) == Some(e.sha256(token)) then Some(k.(digest := "")) else None
  }

  method FindKey(e: Primitives, keys: seq<Key>, id: string, token: string) returns (r: Option<Key>)
    ensures r == Verdict(e, keys, id, token)
  {
    var digest := e.sha256(token);
    for i := 0 to |keys|
      invariant forall j :: 0 <= j < i ==> keys[j].id != id
    {
      if keys[i].id == id {
        LookupFirst(keys, id, i);
        var stored := HexDecode(keys[i].digest);
        if stored.None? || |stored.value| != |digest| {
          return None;
        }
        if stored.value == digest {
          return Some(keys[i].(digest := ""));
        }
        return None;
      }
    }
    return None;
  }

  lemma LookupFirst(keys: seq<Key>, id: string, i: nat)
    requires i < |keys| && keys[i].id == id && forall j :: 0 <= j < i ==> keys[j].id != id
    ensures Lookup(keys, id) == Some(keys[i])
  {
    if i > 0 {
      LookupFirst(keys[1..], id, i - 1);
    }
  }

  lemma {:induction false} LookupAppend(keys: seq<Key>, k: Key, id: string)
    ensures Lookup(keys + [k], id) ==
            if HasId(keys, id) then Lookup(keys, id) else if k.id == id then Some(k) else None
    decreases keys
  {
    if keys == [] {
      assert keys + [k] == [k];
    } else if keys[0].id != id {
      var rest := keys[1..];
      assert (keys + [k])[1..] == rest + [k];
      LookupAppend(rest, k, id);
      assert HasId(keys, id) <==> HasId(rest, id) by {
        assert keys == [keys[0]] + rest;
      }
    }
  }

  lemma {:induction false} LookupWithout(keys: seq<Key>, id: string, other: string)
    ensures Lookup(Without(keys, id), other) == if other == id then None else Lookup(keys, other)
    decreases |keys|
  {
    if keys != [] {
      var n := |keys| - 1;
      var init := keys[..n];
      assert keys == init + [keys[n]];
      LookupWithout(init, id, other);
      LookupAppend(init, keys[n], other);
      LookupAppend(Without(init, id), keys[n], other);
      assert Without(init, id) + [] == Without(init, id);
    }
  }

  // ---- The abstract map ----

  /** The list as a map from IDs; the first record with an ID is the one that counts. */
  function Bindings(keys: seq<Key>): map<string, Key> {
    if keys == [] then map[] else Bindings(keys[1..])[keys[0].id := keys[0]]
  }

  lemma {:induction false} BindingsLookup(keys: seq<Key>, id: string)
    ensures Lookup(keys, id) == if id in Bindings(keys) then Some(Bindings(keys)[id]) else None
    decreases keys
  {
    if keys != [] {
      BindingsLookup(keys[1..], id);
    }
  }

  lemma BindingsExtensional(keys: seq<Key>, m: map<string, Key>)
    requires forall id :: Lookup(keys, id) == if id in m then Some(m[id]) else None
    ensures Bindings(keys) == m
  {
    forall id: string ensures id in Bindings(keys) <==> id in m
      ensures id in m ==> Bindings(keys)[id] == m[id]
    {
      BindingsLookup(keys, id);
      assert Lookup(keys, id) == if id in m then Some(m[id]) else None;
    }
  }

  /** Issuing a key inserts one binding when its ID is fresh, and is invisible to lookups otherwise. */
  lemma AppendInserts(keys: seq<Key>, k: Key)
    ensures Bindings(keys + [k]) == if HasId(keys, k.id) then Bindings(keys) else Bindings(keys)[k.id := k]
  {
    var m := if HasId(keys, k.id) then Bindings(keys) else Bindings(keys)[k.id := k];
    forall id: string ensures Lookup(keys + [k], id) == if id in m then Some(m[id]) else None {
      LookupAppend(keys, k, id);
      BindingsLookup(keys, id);
    }
    BindingsExtensional(keys + [k], m);
  }

  /** Revoking an ID removes exactly its binding. */
  lemma FilterRemoves(keys: seq<Key>, id: string)
    ensures Bindings(Without(keys, id)) == Bindings(keys) - {id}
  {
    var m := Bindings(keys) - {id};
    forall other: string ensures Lookup(Without(keys, id), other) == if other in m then Some(m[other]) else None {
      LookupWithout(keys, id, other);
      BindingsLookup(keys, other);
    }
    BindingsExtensional(Without(keys, id), m);
  }

  /** Authentication is a map lookup and a digest comparison. */
  lemma {:induction false} VerdictIsLookup(e: Primitives, keys: seq<Key>, id: string, token: string)
    ensures var m := Bindings(keys);
            Verdict(e, keys, id, token) ==
            if id in m && HexDecode(m[id].digest) == Some(e.sha256(token)) then Some(m[id].(digest := "")) else None
  {
    BindingsLookup(keys, id);
  }

  // ---- Issuing ----

  /** The record IssueKey appends for the bytes it drew. */
  function Record(e: Primitives, id: seq<byte>, secret: seq<byte>, keyLabel: string, now: int): Key {
    Key(KeyName(id), keyLabel, HexEncode(e.sha256(Print(id, secret))), now)
  }

  /** Whether a token is the one a record was made for. */
  predicate Matches(e: Primitives, k: Key, token: string) {
    StoreKeyId(token) == Some(k.id) && HexDecode(k.digest) == Some(e.sha256(token))
  }

  lemma RecordMatches(e: Primitives, id: seq<byte>, secret: seq<byte>, keyLabel: string, now: int)
    requires id != [] && secret != []
    ensures Matches(e, Record(e, id, secret, keyLabel, now), Print(id, secret))
    ensures var k := Record(e, id, secret, keyLabel, now);
            && k.id == "k_" + HexEncode(id) && k.keyLabel == keyLabel && k.createdAt == now
            && k.digest == HexEncode(e.sha256("cqk_k_" + HexEncode(id) + "_" + B64Encode(secret)))
  {
    PrintedKeyId(id, secret);
    HexRoundTrip(e.sha256(Print(id, secret)));
  }

  /** Right after it was issued, a token is accepted exactly when its ID was fresh or the record that
      already had the ID happens to hold the same digest: IssueKey does not check for ID collisions. */
  lemma AcceptedAfterIssue(e: Primitives, keys: seq<Key>, k: Key, token: string)
    requires Matches(e, k, token)
    ensures Verdict(e, keys + [k], k.id, token).Some? <==>
            match Lookup(keys, k.id)
            case None => true
            case Some(first) => HexDecode(first.digest) == Some(e.sha256(token))
  {
    LookupAppend(keys, k, k.id);
  }
}
