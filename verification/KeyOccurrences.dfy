/**
 * What the first repeated key of a tree is, said without following the tree: list every key
 * occurrence in text order, with the object that holds it; the repeat is the first one whose
 * object held the same key before.
 */
module KeyOccurrences {
  import opened Util
  import opened JsonText
  import opened DuplicateKeys

  /** `holder` is the position of the object in the tree, one index a level. */
  datatype Occurrence = Occurrence(holder: seq<nat>, key: Units, path: Units)

  function Occurrences(v: Value, at: seq<nat>, path: Units): seq<Occurrence>
    requires ValueValid(v)
    decreases v
  {
    match v
    case Array(_, items) => OfItems(items, at, 0, path)
    case Object(_, members) => OfMembers(members, at, 0, path)
    case _ => []
  }

  function OfItems(items: Items, at: seq<nat>, i: nat, path: Units): seq<Occurrence>
    requires ItemsValid(items)
    decreases items
  {
    match items
    case NoItems => []
    case Item(_, value, _, rest) => Occurrences(value, at + [i], path) + OfItems(rest, at, i + 1, path)
  }

  function OfMembers(members: Members, at: seq<nat>, i: nat, path: Units): seq<Occurrence>
    requires MembersValid(members)
    decreases members
  {
    match members
    case NoMembers => []
    case Member(_, name, _, _, value, _, rest) =>
      var key := Meaning(name);
      [Occurrence(at, key, Join(path, key))]
      + Occurrences(value, at + [i], Join(path, key)) + OfMembers(rest, at, i + 1, path)
  }

  /** The object that holds occurrence `j` held the same key before. */
  ghost predicate Repeats(os: seq<Occurrence>, j: nat) {
    j < |os| && exists i :: 0 <= i < j && os[i].holder == os[j].holder && os[i].key == os[j].key
  }

  /** `r` is the path of the first repeat among `os`, if there is one. */
  ghost predicate IsFirstRepeat(os: seq<Occurrence>, r: Option<Units>) {
    match r
    case None => forall j :: 0 <= j < |os| ==> !Repeats(os, j)
    case Some(path) =>
      exists j :: 0 <= j < |os| && Repeats(os, j) && os[j].path == path && forall k :: 0 <= k < j ==> !Repeats(os, k)
  }

  // ---- searching the list ----

  type Key = (seq<nat>, Units)

  function KeyOf(o: Occurrence): Key {
    (o.holder, o.key)
  }

  ghost function KeysOf(os: seq<Occurrence>): set<Key> {
    set o | o in os :: KeyOf(o)
  }

  ghost function Search(os: seq<Occurrence>, had: set<Key>): Option<Units> {
    if os == [] then None
    else if KeyOf(os[0]) in had then Some(os[0].path)
    else Search(os[1..], had + {KeyOf(os[0])})
  }

  lemma {:induction false} SearchBoth(some: seq<Occurrence>, more: seq<Occurrence>, had: set<Key>)
    ensures Search(some + more, had) == OrElse(Search(some, had), Search(more, had + KeysOf(some)))
  {
    if some == [] {
      assert some + more == more && had + KeysOf(some) == had;
    } else {
      assert (some + more)[1..] == some[1..] + more;
      SearchBoth(some[1..], more, had + {KeyOf(some[0])});
      assert had + {KeyOf(some[0])} + KeysOf(some[1..]) == had + KeysOf(some) by {
        assert some == [some[0]] + some[1..];
      }
    }
  }

  /** Searching from the `n`th occurrence on, with the keys before it had, finds the first repeat. */
  lemma {:induction false} SearchFinds(os: seq<Occurrence>, n: nat)
    requires n <= |os| && forall k :: 0 <= k < n ==> !Repeats(os, k)
    ensures IsFirstRepeat(os, Search(os[n..], KeysOf(os[..n])))
    decreases |os| - n
  {
    if n < |os| {
      HadBefore(os, n);
      if !Repeats(os, n) {
        assert os[n..][1..] == os[n + 1..];
        assert os[..n + 1] == os[..n] + [os[n]];
        assert KeysOf(os[..n + 1]) == KeysOf(os[..n]) + {KeyOf(os[n])};
        SearchFinds(os, n + 1);
      }
    }
  }

  lemma HadBefore(os: seq<Occurrence>, n: nat)
    requires n < |os|
    ensures KeyOf(os[n]) in KeysOf(os[..n]) <==> Repeats(os, n)
  {
    if Repeats(os, n) {
      var i :| 0 <= i < n && os[i].holder == os[n].holder && os[i].key == os[n].key;
      assert os[..n][i] == os[i];
      assert os[i] in os[..n] && KeyOf(os[i]) == KeyOf(os[n]);
    }
    if KeyOf(os[n]) in KeysOf(os[..n]) {
      var o :| o in os[..n] && KeyOf(o) == KeyOf(os[n]);
      var i :| 0 <= i < n && os[..n][i] == o;
      assert os[i] == o;
    }
  }

  // ---- the tree's first repeat is what the search finds ----

  /** No key had so far belongs to an object at `at` or under it. */
  ghost predicate Untouched(had: set<Key>, at: seq<nat>) {
    forall k :: k in had ==> !(at <= k.0)
  }

  /** Every key of `os` belongs to an object at `at` or under it. */
  ghost predicate Under(os: seq<Occurrence>, at: seq<nat>) {
    forall o :: o in os ==> at <= o.holder
  }

  lemma Branches(at: seq<nat>, i: nat, j: nat, holder: seq<nat>)
    requires i != j && at + [i] <= holder
    ensures !(at + [j] <= holder) && at <= holder && holder != at
  {
    assert holder[|at|] == (at + [i])[|at|] == i;
    assert (at + [j])[|at|] == j;
    assert at == (at + [i])[..|at|];
  }

  lemma {:induction false} ValueUnder(v: Value, at: seq<nat>, path: Units)
    requires ValueValid(v)
    ensures Under(Occurrences(v, at, path), at)
    decreases v
  {
    match v
    case Array(_, items) => ItemsUnder(items, at, 0, path);
    case Object(_, members) => MembersUnder(members, at, 0, path);
    case _ =>
  }

  lemma {:induction false} ItemsUnder(items: Items, at: seq<nat>, i: nat, path: Units)
    requires ItemsValid(items)
    ensures Under(OfItems(items, at, i, path), at)
    decreases items
  {
    match items
    case NoItems =>
    case Item(_, value, _, rest) =>
      ValueUnder(value, at + [i], path);
      ItemsUnder(rest, at, i + 1, path);
      forall o | o in Occurrences(value, at + [i], path) ensures at <= o.holder { Branches(at, i, i + 1, o.holder); }
  }

  lemma {:induction false} MembersUnder(members: Members, at: seq<nat>, i: nat, path: Units)
    requires MembersValid(members)
    ensures Under(OfMembers(members, at, i, path), at)
    decreases members
  {
    match members
    case NoMembers =>
    case Member(_, name, _, _, value, _, rest) =>
      var inner := Join(path, Meaning(name));
      ValueUnder(value, at + [i], inner);
      MembersUnder(rest, at, i + 1, path);
      forall o | o in Occurrences(value, at + [i], inner) ensures at <= o.holder { Branches(at, i, i + 1, o.holder); }
  }

  /** What is had once a part under `at + [i]` has been searched leaves the later parts untouched. */
  lemma LaterUntouched(had: set<Key>, os: seq<Occurrence>, at: seq<nat>, i: nat, j: nat)
    requires i < j && Untouched(had, at + [j]) && Under(os, at + [i])
    ensures Untouched(had + KeysOf(os), at + [j])
    ensures forall k :: (at, k) in had + KeysOf(os) <==> (at, k) in had
  {
    forall o | o in os ensures !(at + [j] <= o.holder) && o.holder != at { Branches(at, i, j, o.holder); }
  }

  lemma {:induction false} ValueFound(v: Value, at: seq<nat>, path: Units, had: set<Key>)
    requires ValueValid(v) && Untouched(had, at)
    ensures FirstRepeat(v, path) == Search(Occurrences(v, at, path), had)
    decreases v
  {
    match v
    case Array(_, items) =>
      forall j: nat ensures Untouched(had, at + [j]) { UntouchedBelow(had, at, j); }
      ItemsFound(items, at, 0, path, had);
    case Object(_, members) =>
      forall j: nat ensures Untouched(had, at + [j]) { UntouchedBelow(had, at, j); }
      MembersFound(members, at, 0, path, {}, had);
    case _ =>
  }

  lemma UntouchedBelow(had: set<Key>, at: seq<nat>, j: nat)
    requires Untouched(had, at)
    ensures Untouched(had, at + [j])
  {
    forall k | k in had ensures !(at + [j] <= k.0) {
      if at + [j] <= k.0 { Branches(at, j, j + 1, k.0); }
    }
  }

  lemma {:induction false} ItemsFound(items: Items, at: seq<nat>, i: nat, path: Units, had: set<Key>)
    requires ItemsValid(items) && forall j :: j >= i ==> Untouched(had, at + [j])
    ensures FirstRepeatOfItems(items, path) == Search(OfItems(items, at, i, path), had)
    decreases items
  {
    match items
    case NoItems =>
    case Item(_, value, _, rest) =>
      var os := Occurrences(value, at + [i], path);
      ValueFound(value, at + [i], path, had);
      SearchBoth(os, OfItems(rest, at, i + 1, path), had);
      ValueUnder(value, at + [i], path);
      forall j | j >= i + 1 ensures Untouched(had + KeysOf(os), at + [j]) { LaterUntouched(had, os, at, i, j); }
      ItemsFound(rest, at, i + 1, path, had + KeysOf(os));
  }

  lemma {:induction false} MembersFound(members: Members, at: seq<nat>, i: nat, path: Units, keys: set<Units>, had: set<Key>)
    requires MembersValid(members) && forall j :: j >= i ==> Untouched(had, at + [j])
    requires forall k :: (at, k) in had <==> k in keys
    ensures FirstRepeatOfMembers(members, path, keys) == Search(OfMembers(members, at, i, path), had)
    decreases members
  {
    match members
    case NoMembers =>
    case Member(_, name, _, _, value, _, rest) =>
      var key := Meaning(name);
      var inner := Join(path, key);
      var os, more := Occurrences(value, at + [i], inner), OfMembers(rest, at, i + 1, path);
      assert OfMembers(members, at, i, path)[1..] == os + more;
      if key !in keys {
        var now := had + {(at, key)};
        forall j | j >= i ensures Untouched(now, at + [j]) {
        }
        ValueFound(value, at + [i], inner, now);
        SearchBoth(os, more, now);
        ValueUnder(value, at + [i], inner);
        forall j | j >= i + 1 ensures Untouched(now + KeysOf(os), at + [j]) { LaterUntouched(now, os, at, i, j); }
        LaterUntouched(now, os, at, i, i + 1);
        MembersFound(rest, at, i + 1, path, keys + {key}, now + KeysOf(os));
      }
  }

  /** The tree's first repeat is the first repeat of its key occurrences in text order. */
  lemma FirstInTextOrder(v: Value)
    requires ValueValid(v)
    ensures IsFirstRepeat(Occurrences(v, [], []), FirstRepeat(v, []))
  {
    var os := Occurrences(v, [], []);
    ValueFound(v, [], [], {});
    SearchFinds(os, 0);
    assert os[0..] == os && KeysOf(os[..0]) == {};
  }

  // ---- when there is a repeat at all ----

  /** The decoded member names of an object, in order. */
  function Names(members: Members): seq<Units>
    requires MembersValid(members)
  {
    match members
    case NoMembers => []
    case Member(_, name, _, _, _, _, rest) => [Meaning(name)] + Names(rest)
  }

  /** The member names of every object of a tree, at any depth. */
  function Objects(v: Value): seq<seq<Units>>
    requires ValueValid(v)
    decreases v
  {
    match v
    case Array(_, items) => ObjectsOfItems(items)
    case Object(_, members) => [Names(members)] + ObjectsOfMembers(members)
    case _ => []
  }

  function ObjectsOfItems(items: Items): seq<seq<Units>>
    requires ItemsValid(items)
    decreases items
  {
    match items
    case NoItems => []
    case Item(_, value, _, rest) => Objects(value) + ObjectsOfItems(rest)
  }

  function ObjectsOfMembers(members: Members): seq<seq<Units>>
    requires MembersValid(members)
    decreases members
  {
    match members
    case NoMembers => []
    case Member(_, _, _, _, value, _, rest) => Objects(value) + ObjectsOfMembers(rest)
  }

  /** One of the names is among `keys`, or comes a second time. */
  ghost predicate Clashes(names: seq<Units>, keys: set<Units>) {
    !Distinct(names) || exists name :: name in names && name in keys
  }

  ghost predicate AnyClash(objects: seq<seq<Units>>) {
    exists names :: names in objects && !Distinct(names)
  }

  lemma {:induction false} RepeatWhenClash(v: Value, path: Units)
    requires ValueValid(v)
    ensures FirstRepeat(v, path).Some? <==> AnyClash(Objects(v))
    decreases v
  {
    match v
    case Array(_, items) => ItemsWhenClash(items, path);
    case Object(_, members) =>
      MembersWhenClash(members, path, {});
      assert Objects(v)[0] == Names(members) && Objects(v)[1..] == ObjectsOfMembers(members);
    case _ =>
  }

  lemma {:induction false} ItemsWhenClash(items: Items, path: Units)
    requires ItemsValid(items)
    ensures FirstRepeatOfItems(items, path).Some? <==> AnyClash(ObjectsOfItems(items))
    decreases items
  {
    match items
    case NoItems =>
    case Item(_, value, _, rest) =>
      RepeatWhenClash(value, path);
      ItemsWhenClash(rest, path);
  }

  lemma {:induction false} MembersWhenClash(members: Members, path: Units, keys: set<Units>)
    requires MembersValid(members)
    ensures FirstRepeatOfMembers(members, path, keys).Some? <==>
            Clashes(Names(members), keys) || AnyClash(ObjectsOfMembers(members))
    decreases members
  {
    match members
    case NoMembers =>
    case Member(_, name, _, _, value, _, rest) =>
      var key := Meaning(name);
      ClashStep(key, Names(rest), keys);
      if key !in keys {
        RepeatWhenClash(value, Join(path, key));
        MembersWhenClash(rest, path, keys + {key});
      }
  }

  lemma ClashStep(key: Units, names: seq<Units>, keys: set<Units>)
    ensures Clashes([key] + names, keys) <==> key in keys || Clashes(names, keys + {key})
  {
    var all := [key] + names;
    assert all[0] == key && all[1..] == names;
    if !Distinct(names) {
      var i, j :| 0 <= i < j < |names| && names[i] == names[j];
      assert all[i + 1] == all[j + 1];
    }
    if key in names {
      var j :| 0 <= j < |names| && names[j] == key;
      assert all[0] == all[j + 1];
    }
  }

  /**
   * The scanner's answer to a JSON text: a repeat exactly when some object at any depth holds
   * two members whose decoded names are equal, and then the first in text order.
   */
  lemma AnswerMeans(d: Document)
    requires DocumentValid(d)
    ensures Scan(DocumentText(d), State([], [])).Some? <==> AnyClash(Objects(d.value))
    ensures IsFirstRepeat(Occurrences(d.value, [], []), Scan(DocumentText(d), State([], [])))
  {
    DocumentScanned(d);
    RepeatWhenClash(d.value, []);
    FirstInTextOrder(d.value);
  }
}
