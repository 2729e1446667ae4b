/**
  pipelines/consolidate_profile.go: updates are merged into the identity card.  JSON text is
  represented by the value it parses to; the spelling of an identifier as an index key
  (fmt.Sprint, then strings.ToLower) is a parameter.
 */
module ProfileMerge {
  import opened Wrappers

  datatype Value =
    | Null
    | Bool(b: bool)
    | Number(text: string)
    | Text(s: string)
    | Array(items: seq<Value>)
    | Object(fields: map<string, Value>)

  type Fields = map<string, Value>

  const MAX_PEOPLE: nat := 15
  const NAME := "name"
  const PEOPLE := "important_people"
  const CONSOLIDATED := "last_consolidated"
  const CARD_KEYS: set<string> := {NAME, PEOPLE, CONSOLIDATED}

  // ---------------------------------------------------------------------------
  // Upserting objects by identifier
  // ---------------------------------------------------------------------------

  // An entry's index key, if it carries the identifier
  function KeyOf(e: Fields, id: string, key: Value -> string): Option<string> {
    if id in e then Some(key(e[id])) else None
  }

  // The last entry with key k, or -1
  function LastIndex(es: seq<Fields>, id: string, key: Value -> string, k: string): (i: int)
    ensures -1 <= i < |es|
    ensures i >= 0 ==> KeyOf(es[i], id, key) == Some(k)
    ensures forall j :: i < j < |es| ==> KeyOf(es[j], id, key) != Some(k)
    decreases |es|
  {
    if es == [] then -1
    else if KeyOf(es[|es| - 1], id, key) == Some(k) then |es| - 1
    else LastIndex(es[..|es| - 1], id, key, k)
  }

  function Upsert(es: seq<Fields>, id: string, key: Value -> string, u: Fields): seq<Fields> {
    match KeyOf(u, id, key)
    case None => es + [u]
    case Some(k) =>
      var i := LastIndex(es, id, key, k);
      if i >= 0 then es[i := es[i] + u] else es + [u]
  }

  function UpsertAll(es: seq<Fields>, id: string, key: Value -> string, us: seq<Fields>): seq<Fields>
    decreases |us|
  {
    if us == [] then es else Upsert(UpsertAll(es, id, key, us[..|us| - 1]), id, key, us[|us| - 1])
  }

  predicate Unique(es: seq<Fields>, id: string, key: Value -> string) {
    forall i, j :: 0 <= i < j < |es| && id in es[i] && id in es[j] ==> key(es[i][id]) != key(es[j][id])
  }

  lemma UpsertKeys(es: seq<Fields>, id: string, key: Value -> string, u: Fields)
    ensures var r := Upsert(es, id, key, u);
            && |es| <= |r| <= |es| + 1
            && (forall i :: 0 <= i < |es| ==> KeyOf(r[i], id, key) == KeyOf(es[i], id, key))
            && (|r| > |es| ==> r[|es|] == u && (id in u ==> forall i :: 0 <= i < |es| ==> KeyOf(es[i], id, key) != KeyOf(u, id, key)))
  {
  }

  // Identifiers that were unique stay unique.
  lemma {:induction false} UniqueKept(es: seq<Fields>, id: string, key: Value -> string, us: seq<Fields>)
    requires Unique(es, id, key)
    ensures Unique(UpsertAll(es, id, key, us), id, key)
    decreases |us|
  {
    if us != [] {
      var front, u := us[..|us| - 1], us[|us| - 1];
      UniqueKept(es, id, key, front);
      var m := UpsertAll(es, id, key, front);
      var r := Upsert(m, id, key, u);
      UpsertKeys(m, id, key, u);
      forall i, j | 0 <= i < j < |r| && id in r[i] && id in r[j] ensures key(r[i][id]) != key(r[j][id]) {
        assert KeyOf(r[i], id, key) == KeyOf(m[i], id, key);
        if j < |m| {
          assert KeyOf(r[j], id, key) == KeyOf(m[j], id, key);
        }
      }
    }
  }

  // All updates for one key, later fields over earlier ones
  function Combined(us: seq<Fields>, id: string, key: Value -> string, k: string): Fields
    decreases |us|
  {
    if us == [] then map[]
    else
      var front := Combined(us[..|us| - 1], id, key, k);
      if KeyOf(us[|us| - 1], id, key) == Some(k) then front + us[|us| - 1] else front
  }

  predicate Carry(us: seq<Fields>, id: string) { forall u :: u in us ==> id in u }

  // Some update has key k.
  ghost predicate Mentions(us: seq<Fields>, id: string, key: Value -> string, k: string) {
    exists i :: 0 <= i < |us| && KeyOf(us[i], id, key) == Some(k)
  }

  // What the merge means, entry by entry.  An entry that was there keeps its place and, if it
  // is the last with its key, receives all the updates for that key.
  predicate Kept(es: seq<Fields>, id: string, key: Value -> string, us: seq<Fields>, r: seq<Fields>) {
    |r| >= |es| && forall i :: 0 <= i < |es| ==> r[i] == Received(es, id, key, us, i)
  }

  // A new key is appended once, with all of its updates.
  ghost predicate Added(es: seq<Fields>, id: string, key: Value -> string, us: seq<Fields>, r: seq<Fields>) {
    && (forall i :: |es| <= i < |r| ==> Appended(es, id, key, us, r[i]))
    && (forall i, j :: |es| <= i < j < |r| ==> KeyOf(r[i], id, key) != KeyOf(r[j], id, key))
  }

  ghost predicate Appended(es: seq<Fields>, id: string, key: Value -> string, us: seq<Fields>, e: Fields) {
    id in e && e == Combined(us, id, key, key(e[id]))
    && LastIndex(es, id, key, key(e[id])) == -1 && Mentions(us, id, key, key(e[id]))
  }

  // No updated key is missing.
  ghost predicate Covered(id: string, key: Value -> string, us: seq<Fields>, r: seq<Fields>) {
    forall k :: Mentions(us, id, key, k) ==> LastIndex(r, id, key, k) >= 0
  }

  ghost predicate Upserted(es: seq<Fields>, id: string, key: Value -> string, us: seq<Fields>, r: seq<Fields>) {
    Kept(es, id, key, us, r) && Added(es, id, key, us, r) && Covered(id, key, us, r)
  }

  function Received(es: seq<Fields>, id: string, key: Value -> string, us: seq<Fields>, i: nat): Fields
    requires i < |es|
  {
    match KeyOf(es[i], id, key)
    case None => es[i]
    case Some(k) => if LastIndex(es, id, key, k) == i then es[i] + Combined(us, id, key, k) else es[i]
  }

  lemma {:induction false} CombinedUnmentioned(us: seq<Fields>, id: string, key: Value -> string, k: string)
    ensures Mentions(us, id, key, k) || Combined(us, id, key, k) == map[]
    decreases |us|
  {
    if us != [] {
      var front, u := us[..|us| - 1], us[|us| - 1];
      assert us == front + [u];
      CombinedUnmentioned(front, id, key, k);
      MentionsMore(front, id, key, u, k);
    }
  }

  // The index of a key in a list that starts with the same keys as es
  lemma LastAfter(es: seq<Fields>, id: string, key: Value -> string, m: seq<Fields>, k: string)
    requires |m| >= |es| && forall i :: 0 <= i < |es| ==> KeyOf(m[i], id, key) == KeyOf(es[i], id, key)
    ensures var i := LastIndex(m, id, key, k); i >= |es| || i == LastIndex(es, id, key, k)
  {
    var i, j := LastIndex(m, id, key, k), LastIndex(es, id, key, k);
    if i < |es| {
      assert i >= 0 ==> KeyOf(es[i], id, key) == Some(k);
      assert j >= 0 ==> KeyOf(m[j], id, key) == Some(k);
    }
  }

  lemma KeysKept(es: seq<Fields>, id: string, key: Value -> string, us: seq<Fields>, m: seq<Fields>)
    requires Kept(es, id, key, us, m)
    ensures forall i :: 0 <= i < |es| ==> KeyOf(m[i], id, key) == KeyOf(es[i], id, key)
  {
    forall i | 0 <= i < |es| ensures KeyOf(m[i], id, key) == KeyOf(es[i], id, key) {
      ReceivedKey(es, id, key, us, i);
    }
  }

  // One more update changes what an entry receives exactly when it is the last with that key.
  lemma ReceivedMore(es: seq<Fields>, id: string, key: Value -> string, us: seq<Fields>, u: Fields, i: nat)
    requires i < |es| && id in u
    ensures Received(es, id, key, us + [u], i)
            == if LastIndex(es, id, key, key(u[id])) == i then Received(es, id, key, us, i) + u else Received(es, id, key, us, i)
  {
    assert (us + [u])[..|us|] == us;
    if LastIndex(es, id, key, key(u[id])) == i {
      var c := Combined(us, id, key, key(u[id]));
      assert es[i] + (c + u) == (es[i] + c) + u;
    }
  }

  lemma KeptMore(es: seq<Fields>, id: string, key: Value -> string, us: seq<Fields>, m: seq<Fields>, u: Fields)
    requires Upserted(es, id, key, us, m) && id in u
    ensures Kept(es, id, key, us + [u], Upsert(m, id, key, u))
  {
    var k := key(u[id]);
    KeysKept(es, id, key, us, m);
    LastAfter(es, id, key, m, k);
    forall i | 0 <= i < |es| ensures Upsert(m, id, key, u)[i] == Received(es, id, key, us + [u], i) {
      ReceivedMore(es, id, key, us, u, i);
      var idx := LastIndex(m, id, key, k);
      if idx >= |es| {
        assert Appended(es, id, key, us, m[idx]);
      }
    }
  }

  lemma AddedMore(es: seq<Fields>, id: string, key: Value -> string, us: seq<Fields>, m: seq<Fields>, u: Fields)
    requires Upserted(es, id, key, us, m) && id in u
    ensures Added(es, id, key, us + [u], Upsert(m, id, key, u))
  {
    var k, r := key(u[id]), Upsert(m, id, key, u);
    UpsertKeys(m, id, key, u);
    KeysKept(es, id, key, us, m);
    LastAfter(es, id, key, m, k);
    assert (us + [u])[..|us|] == us;
    forall i | |es| <= i < |r| ensures Appended(es, id, key, us + [u], r[i]) {
      if i < |m| {
        assert Appended(es, id, key, us, m[i]);
        MentionsMore(us, id, key, u, key(m[i][id]));
      } else {
        MentionsMore(us, id, key, u, k);
        CombinedUnmentioned(us, id, key, k);
        assert map[] + u == u;
      }
    }
    forall i, j | |es| <= i < j < |r| ensures KeyOf(r[i], id, key) != KeyOf(r[j], id, key) {
      assert KeyOf(r[i], id, key) == KeyOf(m[i], id, key);
      if j < |m| {
        assert KeyOf(r[j], id, key) == KeyOf(m[j], id, key);
      }
    }
  }

  lemma CoveredMore(id: string, key: Value -> string, us: seq<Fields>, m: seq<Fields>, u: Fields)
    requires Covered(id, key, us, m) && id in u
    ensures Covered(id, key, us + [u], Upsert(m, id, key, u))
  {
    var r := Upsert(m, id, key, u);
    UpsertKeys(m, id, key, u);
    forall k | Mentions(us + [u], id, key, k) ensures LastIndex(r, id, key, k) >= 0 {
      MentionsMore(us, id, key, u, k);
      var i := LastIndex(m, id, key, k);
      if i >= 0 {
        assert KeyOf(r[i], id, key) == Some(k);
      } else {
        assert KeyOf(r[|m|], id, key) == Some(k);
      }
    }
  }

  lemma {:induction false} UpsertMeans(es: seq<Fields>, id: string, key: Value -> string, us: seq<Fields>)
    requires Carry(us, id)
    ensures Upserted(es, id, key, us, UpsertAll(es, id, key, us))
    decreases |us|
  {
    if us == [] {
      forall i | 0 <= i < |es| ensures es[i] == Received(es, id, key, us, i) {
        assert es[i] + map[] == es[i];
      }
    } else {
      var front, u := us[..|us| - 1], us[|us| - 1];
      UpsertMeans(es, id, key, front);
      var m := UpsertAll(es, id, key, front);
      assert u in us && us == front + [u];
      KeptMore(es, id, key, front, m, u);
      AddedMore(es, id, key, front, m, u);
      CoveredMore(id, key, front, m, u);
    }
  }

  lemma ReceivedKey(es: seq<Fields>, id: string, key: Value -> string, us: seq<Fields>, i: nat)
    requires i < |es|
    ensures KeyOf(Received(es, id, key, us, i), id, key) == KeyOf(es[i], id, key)
  {
    match KeyOf(es[i], id, key)
    case None =>
    case Some(k) => CombinedKey(us, id, key, k);
  }

  lemma {:induction false} CombinedKey(us: seq<Fields>, id: string, key: Value -> string, k: string)
    ensures id in Combined(us, id, key, k) ==> key(Combined(us, id, key, k)[id]) == k
    decreases |us|
  {
    if us != [] {
      CombinedKey(us[..|us| - 1], id, key, k);
    }
  }

  lemma MentionsMore(us: seq<Fields>, id: string, key: Value -> string, u: Fields, k: string)
    ensures Mentions(us + [u], id, key, k) <==> Mentions(us, id, key, k) || KeyOf(u, id, key) == Some(k)
  {
    var all := us + [u];
    if i :| 0 <= i < |us| && KeyOf(us[i], id, key) == Some(k) {
      assert KeyOf(all[i], id, key) == Some(k);
    }
    assert all[|us|] == u;
  }

  // ---------------------------------------------------------------------------
  // The cap, and merging again
  // ---------------------------------------------------------------------------

  function Tail(es: seq<Fields>, n: nat): seq<Fields> { if |es| > n then es[|es| - n..] else es }

  function MergePeople(es: seq<Fields>, key: Value -> string, us: seq<Fields>): seq<Fields> {
    Tail(UpsertAll(es, NAME, key, us), MAX_PEOPLE)
  }

  // The entry that an update would change already has all the updates for its key.
  predicate Absorbs(es: seq<Fields>, key: Value -> string, us: seq<Fields>, k: string) {
    var i := LastIndex(es, NAME, key, k);
    i >= 0 ==> es[i] + Combined(us, NAME, key, k) == es[i]
  }

  lemma MergedAbsorbs(es: seq<Fields>, key: Value -> string, us: seq<Fields>, k: string)
    requires Carry(us, NAME)
    ensures Absorbs(UpsertAll(es, NAME, key, us), key, us, k)
  {
    var m := UpsertAll(es, NAME, key, us);
    UpsertMeans(es, NAME, key, us);
    KeysKept(es, NAME, key, us, m);
    LastAfter(es, NAME, key, m, k);
    var i, c := LastIndex(m, NAME, key, k), Combined(us, NAME, key, k);
    if i >= |es| {
      assert Appended(es, NAME, key, us, m[i]);
      assert c + c == c;
    } else if i >= 0 {
      assert (es[i] + c) + c == es[i] + c;
    }
  }

  lemma LastInTail(es: seq<Fields>, key: Value -> string, n: nat, k: string)
    ensures var t := Tail(es, n); var i := LastIndex(t, NAME, key, k);
            i >= 0 ==> LastIndex(es, NAME, key, k) == i + |es| - |t|
  {
    var t := Tail(es, n);
    var i, j := LastIndex(t, NAME, key, k), LastIndex(es, NAME, key, k);
    var d := |es| - |t|;
    if i >= 0 {
      assert es[i + d] == t[i];
      assert j >= d ==> t[j - d] == es[j];
    }
  }

  // Every updated person is on the list.
  ghost predicate Listed(es: seq<Fields>, key: Value -> string, us: seq<Fields>) {
    forall k :: Mentions(us, NAME, key, k) ==> LastIndex(es, NAME, key, k) >= 0
  }

  // Updates that a list absorbs and lists leave it unchanged.
  lemma AbsorbedUnchanged(es: seq<Fields>, key: Value -> string, us: seq<Fields>)
    requires Carry(us, NAME) && Listed(es, key, us)
    requires forall k :: Absorbs(es, key, us, k)
    ensures UpsertAll(es, NAME, key, us) == es
  {
    var m := UpsertAll(es, NAME, key, us);
    UpsertMeans(es, NAME, key, us);
    assert |m| > |es| ==> Appended(es, NAME, key, us, m[|es|]);
    forall i | 0 <= i < |es| ensures m[i] == es[i] {
      assert m[i] == Received(es, NAME, key, us, i);
      var k := KeyOf(es[i], NAME, key);
      assert k.Some? ==> Absorbs(es, key, us, k.value);
    }
  }

  // Merging the same updates again changes nothing exactly when the cap has not dropped an
  // updated person; below the cap it never has.
  lemma RemergeExactly(es: seq<Fields>, key: Value -> string, us: seq<Fields>)
    requires Carry(us, NAME)
    ensures var once := MergePeople(es, key, us);
            && (MergePeople(once, key, us) == once <==> Listed(once, key, us))
            && (|UpsertAll(es, NAME, key, us)| <= MAX_PEOPLE ==> Listed(once, key, us))
  {
    var m, once := UpsertAll(es, NAME, key, us), MergePeople(es, key, us);
    UpsertMeans(es, NAME, key, us);
    if Listed(once, key, us) {
      forall k ensures Absorbs(once, key, us, k) {
        MergedAbsorbs(es, key, us, k);
        LastInTail(m, key, MAX_PEOPLE, k);
      }
      AbsorbedUnchanged(once, key, us);
    } else {
      RemergeLists(once, key, us);
    }
  }

  // A person missing from the list is appended by the second merge, and the cap keeps the end.
  lemma RemergeLists(once: seq<Fields>, key: Value -> string, us: seq<Fields>)
    requires Carry(us, NAME) && !Listed(once, key, us) && |once| <= MAX_PEOPLE
    ensures MergePeople(once, key, us) != once
  {
    var k :| Mentions(us, NAME, key, k) && LastIndex(once, NAME, key, k) < 0;
    var m, twice := UpsertAll(once, NAME, key, us), MergePeople(once, key, us);
    UpsertMeans(once, NAME, key, us);
    assert |m| > |once| by {
      var i := LastIndex(m, NAME, key, k);
      assert i >= 0;
      KeysKept(once, NAME, key, us, m);
      LastAfter(once, NAME, key, m, k);
    }
    assert twice[|twice| - 1] == m[|m| - 1];
    assert Appended(once, NAME, key, us, m[|m| - 1]);
    var q := key(m[|m| - 1][NAME]);
    assert LastIndex(once, NAME, key, q) == -1;
    assert KeyOf(twice[|twice| - 1], NAME, key) == Some(q);
  }

  lemma TailUnique(es: seq<Fields>, key: Value -> string, n: nat)
    requires Unique(es, NAME, key)
    ensures Unique(Tail(es, n), NAME, key)
  {
    var t := Tail(es, n);
    assert forall i :: 0 <= i < |t| ==> t[i] == es[i + |es| - |t|];
  }

  // ---------------------------------------------------------------------------
  // Profiles
  // ---------------------------------------------------------------------------

  // json.Unmarshal into a map: an error, the nil map for null, or the fields.
  datatype Parsed = Unparseable | NilMap | Map(fields: Fields)

  // The new card, an error about the updates, or a panic on a nil map
  datatype Outcome = Card(fields: Fields) | BadUpdates | Panic

  // toObjectSlice: entries that are not objects are skipped.
  function Objects(v: Option<Value>): seq<Fields> {
    if v.Some? && v.value.Array? then ObjectsOf(v.value.items) else []
  }

  function ObjectsOf(items: seq<Value>): (r: seq<Fields>)
    decreases |items|
  {
    if items == [] then []
    else
      var front := ObjectsOf(items[..|items| - 1]);
      match items[|items| - 1]
      case Object(fields) => front + [fields]
      case _ => front
  }

  function Get(m: Fields, k: string): Option<Value> { if k in m then Some(m[k]) else None }

  function ObjectValues(es: seq<Fields>): (r: seq<Value>)
    ensures |r| == |es| && forall i :: 0 <= i < |es| ==> r[i] == Object(es[i])
  {
    seq(|es|, (i: nat) requires i < |es| => Object(es[i]))
  }

  // A nil slice marshals to null.
  function PeopleValue(es: seq<Fields>, wasArray: bool): Value {
    if es == [] && !wasArray then Null else Array(ObjectValues(es))
  }

  function MergedValue(current: Fields, k: string, v: Value, key: Value -> string): Value {
    if k == PEOPLE then
      PeopleValue(UpsertAll(Objects(Get(current, PEOPLE)), NAME, key, Objects(Some(v))),
                  PEOPLE in current && current[PEOPLE].Array?)
    else v
  }

  lemma {:induction false} ObjectsRoundTrip(es: seq<Fields>)
    ensures ObjectsOf(ObjectValues(es)) == es
    decreases |es|
  {
    if es != [] {
      var front := es[..|es| - 1];
      ObjectsRoundTrip(front);
      assert ObjectValues(es)[..|es| - 1] == ObjectValues(front);
      assert es == front + [es[|es| - 1]];
    }
  }

  // The card before the cap: updated keys over the current ones, only those of the schema
  function Overlaid(current: Fields, updates: Fields, key: Value -> string): Fields {
    map k | k in current.Keys + updates.Keys && k in CARD_KEYS ::
      if k in updates then MergedValue(current, k, updates[k], key) else current[k]
  }

  function CappedCard(m: Fields): Fields {
    var people := Objects(Get(m, PEOPLE));
    if |people| > MAX_PEOPLE then m[PEOPLE := Array(ObjectValues(Tail(people, MAX_PEOPLE)))] else m
  }

  function CurrentFields(current: Parsed): Fields { if current.Map? then current.fields else map[] }

  function MergeProfile(current: Parsed, updates: Parsed, key: Value -> string): Outcome {
    if updates.Unparseable? then BadUpdates
    else if current.NilMap? && CurrentFields(updates) != map[] then Panic
    else Card(CappedCard(Overlaid(CurrentFields(current), CurrentFields(updates), key)))
  }

  // mergeObjectArray, with its index from identifier to position
  method MergeObjectArray(current: seq<Fields>, updates: seq<Fields>, id: string, key: Value -> string)
    returns (merged: seq<Fields>)
    ensures merged == UpsertAll(current, id, key, updates)
  {
    merged := current;
    var index: map<string, nat> := map[];
    var i := 0;
    while i < |merged|
      invariant 0 <= i <= |merged| == |current| && merged == current
      invariant IndexOf(index, merged[..i], id, key)
    {
      assert merged[..i + 1][..i] == merged[..i];
      if id in merged[i] {
        index := index[key(merged[i][id]) := i];
      }
      i := i + 1;
    }
    assert merged[..i] == merged;
    var j := 0;
    while j < |updates|
      invariant 0 <= j <= |updates|
      invariant IndexOf(index, merged, id, key)
      invariant merged == UpsertAll(current, id, key, updates[..j])
    {
      var upd := updates[j];
      assert updates[..j + 1][..j] == updates[..j];
      index, merged := UpsertOne(index, merged, id, key, upd);
      j := j + 1;
    }
    assert updates[..j] == updates;
  }

  // The index holds exactly the keys of the list, each with the position of its last entry.
  predicate IndexOf(index: map<string, nat>, es: seq<Fields>, id: string, key: Value -> string) {
    && (forall k :: k in index ==> index[k] == LastIndex(es, id, key, k))
    && (forall i :: 0 <= i < |es| && id in es[i] ==> key(es[i][id]) in index)
  }

  method UpsertOne(index: map<string, nat>, es: seq<Fields>, id: string, key: Value -> string, upd: Fields)
    returns (index': map<string, nat>, r: seq<Fields>)
    requires IndexOf(index, es, id, key)
    ensures r == Upsert(es, id, key, upd) && IndexOf(index', r, id, key)
  {
    index' := index;
    if id !in upd {
      r := es + [upd];
      assert r[..|r| - 1] == es;
      return;
    }
    var k := key(upd[id]);
    if k in index {
      r := es[index[k] := es[index[k]] + upd];
      assert forall i :: 0 <= i < |es| ==> KeyOf(r[i], id, key) == KeyOf(es[i], id, key);
      forall q | q in index ensures index[q] == LastIndex(r, id, key, q) {
        LastAfter(es, id, key, r, q);
      }
    } else {
      assert LastIndex(es, id, key, k) == -1;
      index' := index[k := |es|];
      r := es + [upd];
      assert r[..|r| - 1] == es;
    }
  }

  // The updated keys in `done` have their new values, `people` being that of the list.
  ghost predicate OverlayDone(before: Fields, upd: Fields, people: Value, done: set<string>, m: Fields)
    requires done <= upd.Keys
  {
    && (forall k :: k in m <==> k in before || k in done)
    && forall k :: k in m ==> m[k] == if k !in done then before[k] else if k == PEOPLE then people else upd[k]
  }

  // Every key of the updates, in no particular order
  method OverlayUpdates(before: Fields, upd: Fields, key: Value -> string, ghost people: Value) returns (m: Fields)
    requires PEOPLE in upd ==> people == MergedValue(before, PEOPLE, upd[PEOPLE], key)
    ensures OverlayDone(before, upd, people, upd.Keys, m)
  {
    m := before;
    var todo := upd.Keys;
    ghost var done: set<string> := {};
    while todo != {}
      invariant done <= upd.Keys && todo == upd.Keys - done
      invariant OverlayDone(before, upd, people, done, m)
      decreases todo
    {
      var k :| k in todo;
      var v := upd[k];
      if k == PEOPLE {
        assert Get(m, PEOPLE) == Get(before, PEOPLE);
        v := MergePeopleField(before, m, v, key);
      }
      m := m[k := v];
      todo := todo - {k};
      done := done + {k};
    }
    assert done == upd.Keys;
  }

  method MergePeopleField(ghost before: Fields, m: Fields, v: Value, key: Value -> string) returns (r: Value)
    requires Get(m, PEOPLE) == Get(before, PEOPLE)
    ensures r == MergedValue(before, PEOPLE, v, key)
  {
    var people := MergeObjectArray(Objects(Get(m, PEOPLE)), Objects(Some(v)), NAME, key);
    r := PeopleValue(people, PEOPLE in m && m[PEOPLE].Array?);
  }

  // Keys outside the schema are stripped.
  function OnCard(m: Fields): Fields { map k | k in m && k in CARD_KEYS :: m[k] }

  lemma OverlayIsCard(before: Fields, upd: Fields, key: Value -> string, m: Fields, people: Value)
    requires PEOPLE in upd ==> people == MergedValue(before, PEOPLE, upd[PEOPLE], key)
    requires OverlayDone(before, upd, people, upd.Keys, m)
    ensures OnCard(m) == Overlaid(before, upd, key)
  {
    var o := Overlaid(before, upd, key);
    assert forall k :: k in OnCard(m) <==> k in o;
    forall k | k in o ensures OnCard(m)[k] == o[k] {
      if k in upd && k != PEOPLE {
        assert MergedValue(before, k, upd[k], key) == upd[k];
      }
    }
  }

  method CapPeople(m: Fields) returns (r: Fields)
    ensures r == CappedCard(m)
  {
    var people := Objects(Get(m, PEOPLE));
    r := m;
    if |people| > MAX_PEOPLE {
      r := m[PEOPLE := Array(ObjectValues(people[|people| - MAX_PEOPLE..]))];
    }
  }

  method MergeFields(before: Fields, upd: Fields, key: Value -> string) returns (m: Fields)
    ensures m == Overlaid(before, upd, key)
  {
    ghost var newPeople := if PEOPLE in upd then MergedValue(before, PEOPLE, upd[PEOPLE], key) else Null;
    var all := OverlayUpdates(before, upd, key, newPeople);
    OverlayIsCard(before, upd, key, all, newPeople);
    return OnCard(all);
  }

  // mergeProfileJSON
  method MergeProfileJSON(current: Parsed, updates: Parsed, key: Value -> string) returns (r: Outcome)
    ensures r == MergeProfile(current, updates, key)
  {
    if updates.Unparseable? {
      return BadUpdates;
    }
    if current.NilMap? && CurrentFields(updates) != map[] {
      return Panic;
    }
    var m := MergeFields(CurrentFields(current), CurrentFields(updates), key);
    m := CapPeople(m);
    return Card(m);
  }

  // validateProfile
  predicate Validates(merged: Fields, current: Fields) {
    forall k :: k in {NAME, PEOPLE} && k in current ==> k in merged
  }

  // The merge fails only on unparseable updates and on a null card; otherwise the result is a
  // card of at most fifteen people that passes validation and has the updated name.
  lemma CardSound(current: Parsed, updates: Parsed, key: Value -> string)
    ensures var r := MergeProfile(current, updates, key);
            && (r.BadUpdates? <==> updates.Unparseable?)
            && (r.Panic? <==> current.NilMap? && updates.Map? && updates.fields != map[])
            && (r.Card? ==>
                  && r.fields.Keys <= CARD_KEYS
                  && Validates(r.fields, CurrentFields(current))
                  && |Objects(Get(r.fields, PEOPLE))| <= 15
                  && Get(r.fields, NAME) ==
                       if NAME in CurrentFields(updates) then Get(CurrentFields(updates), NAME) else Get(CurrentFields(current), NAME))
  {
    var r := MergeProfile(current, updates, key);
    if r.Card? {
      var m := Overlaid(CurrentFields(current), CurrentFields(updates), key);
      var people := Objects(Get(m, PEOPLE));
      ObjectsRoundTrip(Tail(people, MAX_PEOPLE));
      assert NAME[0] == 'n' && PEOPLE[0] == 'i';
    }
  }

  // The people of a merged card: the merge of the two lists, cut to the last fifteen
  lemma PeopleMerged(current: Parsed, updates: Parsed, key: Value -> string)
    requires MergeProfile(current, updates, key).Card?
    ensures var m := MergeProfile(current, updates, key).fields;
            Objects(Get(m, PEOPLE)) ==
            MergePeople(Objects(Get(CurrentFields(current), PEOPLE)), key, Objects(Get(CurrentFields(updates), PEOPLE)))
    ensures var m := MergeProfile(current, updates, key).fields;
            var all := UpsertAll(Objects(Get(CurrentFields(current), "important_people")), "name", key,
                                 Objects(Get(CurrentFields(updates), "important_people")));
            Objects(Get(m, "important_people")) == if |all| > 15 then all[|all| - 15..] else all
  {
    var before, upd := CurrentFields(current), CurrentFields(updates);
    var es, us := Objects(Get(before, PEOPLE)), Objects(Get(upd, PEOPLE));
    var m := Overlaid(before, upd, key);
    ObjectsRoundTrip(UpsertAll(es, NAME, key, us));
    assert Objects(Get(m, PEOPLE)) == UpsertAll(es, NAME, key, us);
    ObjectsRoundTrip(Tail(Objects(Get(m, PEOPLE)), MAX_PEOPLE));
  }

  // Identifiers that were unique on the card are unique on the merged card.
  lemma CardKeepsUnique(current: Parsed, updates: Parsed, key: Value -> string)
    requires Unique(Objects(Get(CurrentFields(current), PEOPLE)), NAME, key)
    requires MergeProfile(current, updates, key).Card?
    ensures Unique(Objects(Get(MergeProfile(current, updates, key).fields, PEOPLE)), NAME, key)
  {
    var es, us := Objects(Get(CurrentFields(current), PEOPLE)), Objects(Get(CurrentFields(updates), PEOPLE));
    PeopleMerged(current, updates, key);
    UniqueKept(es, NAME, key, us);
    TailUnique(UpsertAll(es, NAME, key, us), key, MAX_PEOPLE);
  }

  // Merging the same updates into the new card leaves it as it is exactly when every updated
  // person is still on it.
  lemma CardRemergeExactly(current: Parsed, updates: Parsed, key: Value -> string)
    requires MergeProfile(current, updates, key).Card?
    requires Carry(Objects(Get(CurrentFields(updates), PEOPLE)), NAME)
    ensures var m := MergeProfile(current, updates, key).fields;
            MergeProfile(Map(m), updates, key) == Card(m)
            <==> Listed(Objects(Get(m, PEOPLE)), key, Objects(Get(CurrentFields(updates), PEOPLE)))
  {
    var us := Objects(Get(CurrentFields(updates), PEOPLE));
    var m := MergeProfile(current, updates, key).fields;
    var n := MergeProfile(Map(m), updates, key).fields;
    var once := Objects(Get(m, PEOPLE));
    PeopleMerged(current, updates, key);
    PeopleMerged(Map(m), updates, key);
    RemergeExactly(Objects(Get(CurrentFields(current), PEOPLE)), key, us);
    if Listed(once, key, us) {
      ListedUnchanged(once, key, us);
      SamePeopleValue(current, updates, key);
      SameOtherValues(current, updates, key);
      assert n == m;
    }
  }

  lemma ListedUnchanged(once: seq<Fields>, key: Value -> string, us: seq<Fields>)
    requires Carry(us, NAME) && Listed(once, key, us) && MergePeople(once, key, us) == once && |once| <= MAX_PEOPLE
    ensures UpsertAll(once, NAME, key, us) == once
  {
    UpsertMeans(once, NAME, key, us);
    var m := UpsertAll(once, NAME, key, us);
    assert |m| > |once| ==> Appended(once, NAME, key, us, m[|once|]);
  }

  lemma SameOtherValues(current: Parsed, updates: Parsed, key: Value -> string)
    requires MergeProfile(current, updates, key).Card?
    ensures var m := MergeProfile(current, updates, key).fields; var n := MergeProfile(Map(m), updates, key).fields;
            n.Keys == m.Keys && forall k :: k in m && k != PEOPLE ==> n[k] == m[k]
  {
    var before, upd := CurrentFields(current), CurrentFields(updates);
    var o := Overlaid(before, upd, key);
    var m := MergeProfile(current, updates, key).fields;
    assert m.Keys == o.Keys && forall k :: k in o && k != PEOPLE ==> m[k] == o[k];
    var o' := Overlaid(m, upd, key);
    assert o'.Keys == o.Keys;
    assert forall k :: k in o && k != PEOPLE ==> o'[k] == o[k];
  }

  lemma SamePeopleValue(current: Parsed, updates: Parsed, key: Value -> string)
    requires MergeProfile(current, updates, key).Card?
    requires var m := MergeProfile(current, updates, key).fields;
             UpsertAll(Objects(Get(m, PEOPLE)), NAME, key, Objects(Get(CurrentFields(updates), PEOPLE))) == Objects(Get(m, PEOPLE))
    ensures var m := MergeProfile(current, updates, key).fields;
            Get(MergeProfile(Map(m), updates, key).fields, PEOPLE) == Get(m, PEOPLE)
  {
    var before, upd := CurrentFields(current), CurrentFields(updates);
    var m := MergeProfile(current, updates, key).fields;
    var o := Overlaid(before, upd, key);
    var people := Objects(Get(o, PEOPLE));
    ObjectsRoundTrip(Tail(people, MAX_PEOPLE));
    ObjectsRoundTrip(UpsertAll(Objects(Get(before, PEOPLE)), NAME, key, Objects(Get(upd, PEOPLE))));
    assert |Objects(Get(m, PEOPLE))| <= MAX_PEOPLE;
  }

  // The keys of the merged card, and what stands under each but the people: the updated value if
  // there is one, otherwise the old one.
  lemma OverlayExactly(current: Parsed, updates: Parsed, key: Value -> string, k: string)
    requires MergeProfile(current, updates, key).Card?
    ensures var m, was, upd := MergeProfile(current, updates, key).fields, CurrentFields(current), CurrentFields(updates);
            && (k in m <==> (k in was || k in upd) && (k == "name" || k == "important_people" || k == "last_consolidated"))
            && (k in m && k != "important_people" ==> m[k] == if k in upd then upd[k] else was[k])
  {
    var m := Overlaid(CurrentFields(current), CurrentFields(updates), key);
    assert k in CARD_KEYS <==> k == "name" || k == "important_people" || k == "last_consolidated";
  }

  // What stands under the people: the old value when they are not updated and at most fifteen, else
  // the list of the merged people, or null when there are none and there was no list before.
  lemma PeopleValueExactly(current: Parsed, updates: Parsed, key: Value -> string)
    requires MergeProfile(current, updates, key).Card?
    ensures var m, was, upd := MergeProfile(current, updates, key).fields, CurrentFields(current), CurrentFields(updates);
            var people := Objects(Get(m, "important_people"));
            "important_people" in m ==>
              m["important_people"] ==
                if "important_people" in upd then
                  if people == [] && !("important_people" in was && was["important_people"].Array?) then Null
                  else Array(ObjectValues(people))
                else if |Objects(Get(was, "important_people"))| > 15 then Array(ObjectValues(people))
                else was["important_people"]
  {
    var was, upd := CurrentFields(current), CurrentFields(updates);
    var merged := UpsertAll(Objects(Get(was, PEOPLE)), NAME, key, Objects(Get(upd, PEOPLE)));
    PeopleMerged(current, updates, key);
    ObjectsRoundTrip(merged);
    ObjectsRoundTrip(Tail(merged, MAX_PEOPLE));
  }
}
