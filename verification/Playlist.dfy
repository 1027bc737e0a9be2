/** playlist.cpp: the ordered items of a playlist, moving them about, and loading and saving. */
module Playlists {
  import opened Bytes
  import PlaylistText

  const INVALID := -1

  datatype Item = Item(id: int, url: string)

  predicate UniqueIds(items: seq<Item>) {
    forall i, j :: 0 <= i < j < |items| ==> items[i].id != items[j].id
  }

  /** The position of the item with this id, or the end. */
  function IndexOf(items: seq<Item>, id: int): (i: nat)
    ensures i <= |items| && (forall j :: 0 <= j < i ==> items[j].id != id)
    ensures i < |items| ==> items[i].id == id
  {
    if items == [] || items[0].id == id then 0 else 1 + IndexOf(items[1..], id)
  }

  lemma {:induction false} IndexOfIs(items: seq<Item>, id: int, i: nat)
    requires i <= |items| && (forall j :: 0 <= j < i ==> items[j].id != id) && (i < |items| ==> items[i].id == id)
    ensures IndexOf(items, id) == i
  {
    if i == 0 {
    } else {
      IndexOfIs(items[1..], id, i - 1);
    }
  }

  function Before(items: seq<Item>, id: int): seq<Item> { items[..IndexOf(items, id)] }

  function From(items: seq<Item>, id: int): seq<Item> { items[IndexOf(items, id)..] }

  function KeptOne(x: Item, ids: set<int>): seq<Item> {
    if x.id in ids then [] else [x]
  }

  /** The items whose id is not in the set, in order. */
  function Keep(items: seq<Item>, ids: set<int>): seq<Item> {
    if items == [] then [] else KeptOne(items[0], ids) + Keep(items[1..], ids)
  }

  lemma {:induction false} KeptAre(items: seq<Item>, ids: set<int>, x: Item)
    ensures x in Keep(items, ids) <==> x in items && x.id !in ids
  {
    if items == [] {
    } else {
      KeptAre(items[1..], ids, x);
      assert items == [items[0]] + items[1..];
    }
  }

  lemma {:induction false} KeepAppend(a: seq<Item>, b: seq<Item>, ids: set<int>)
    ensures Keep(a + b, ids) == Keep(a, ids) + Keep(b, ids)
  {
    if a == [] {
      assert a + b == b;
    } else {
      KeepAppend(a[1..], b, ids);
      assert (a + b)[1..] == a[1..] + b && (a + b)[0] == a[0];
      Assoc(KeptOne(a[0], ids), Keep(a[1..], ids), Keep(b, ids));
    }
  }

  lemma {:induction false} KeepAll(items: seq<Item>, ids: set<int>)
    requires forall x :: x in items ==> x.id !in ids
    ensures Keep(items, ids) == items
  {
    if items == [] {
    } else {
      assert items[0] in items;
      KeepAll(items[1..], ids);
    }
  }

  lemma {:induction false} KeepTwice(items: seq<Item>, a: set<int>, b: set<int>)
    ensures Keep(Keep(items, a), b) == Keep(items, a + b)
  {
    if items == [] {
    } else {
      KeepTwice(items[1..], a, b);
      KeepAppend(KeptOne(items[0], a), Keep(items[1..], a), b);
      assert Keep(KeptOne(items[0], a), b) == KeptOne(items[0], a + b);
    }
  }

  /** The item goes from where it is to directly before the target, or to the end if there is no
      target; nothing happens if it is not there or is the target. */
  function Moved(items: seq<Item>, id: int, target: int): seq<Item> {
    var i := IndexOf(items, id);
    if i == |items| || id == target then items
    else Keep(Before(items, target), {id}) + [items[i]] + Keep(From(items, target), {id})
  }

  /** The moved items, in the order of the loop, which starts from the end of the list. */
  function Block(items: seq<Item>, ids: seq<int>): seq<Item> {
    if ids == [] then []
    else
      var i := IndexOf(items, ids[0]);
      Block(items, ids[1..]) + (if i < |items| then [items[i]] else [])
  }

  function IdSet(ids: seq<int>): set<int> {
    set x | x in ids
  }

  /** What moving a list of items makes of a playlist. */
  function AllMoved(items: seq<Item>, ids: seq<int>, target: int): seq<Item> {
    Keep(Before(items, target), IdSet(ids)) + Block(items, ids) + Keep(From(items, target), IdSet(ids))
  }

  /** Cutting at the target: the front has no target, the rest is empty or starts with it. */
  lemma CutAt(a: seq<Item>, c: seq<Item>, target: int)
    requires (forall x :: x in a ==> x.id != target) && (c != [] ==> c[0].id == target)
    ensures Before(a + c, target) == a && From(a + c, target) == c
  {
    IndexOfIs(a + c, target, |a|);
  }

  lemma {:induction false} BlockIds(items: seq<Item>, ids: seq<int>)
    ensures forall x :: x in Block(items, ids) ==> x.id in ids && x in items
  {
    if ids == [] {
    } else {
      BlockIds(items, ids[1..]);
    }
  }

  /** What the playlist holds after others have been moved. */
  lemma MovedHold(items: seq<Item>, ids: seq<int>, target: int, x: Item)
    ensures x in AllMoved(items, ids, target) ==> x in items
    ensures x in items && x.id !in ids ==> x in AllMoved(items, ids, target)
  {
    BlockIds(items, ids);
    KeptAre(Before(items, target), IdSet(ids), x);
    KeptAre(From(items, target), IdSet(ids), x);
    assert items == Before(items, target) + From(items, target);
  }

  /** Where an item is, after all the others of a list have been moved. */
  lemma StillThere(items: seq<Item>, ids: seq<int>, target: int, id: int)
    requires UniqueIds(items) && id !in ids
    ensures var m := AllMoved(items, ids, target); var i, k := IndexOf(items, id), IndexOf(m, id);
      (i == |items| <==> k == |m|) && (i < |items| ==> m[k] == items[i])
  {
    var m := AllMoved(items, ids, target);
    var i, k := IndexOf(items, id), IndexOf(m, id);
    if i < |items| { MovedHold(items, ids, target, items[i]); }
    if k < |m| {
      MovedHold(items, ids, target, m[k]);
      var j :| 0 <= j < |items| && items[j] == m[k];
      assert j < i ==> items[j].id != id;
      assert i < j ==> items[i].id != items[j].id;
    }
  }

  /** Without a move of the target, the target still cuts the playlist. */
  lemma MovedCut(items: seq<Item>, ids: seq<int>, target: int)
    requires target !in ids
    ensures var s, m := IdSet(ids), AllMoved(items, ids, target);
      && Before(m, target) == Keep(Before(items, target), s) + Block(items, ids)
      && From(m, target) == Keep(From(items, target), s)
  {
    var s := IdSet(ids);
    var a, c := Keep(Before(items, target), s) + Block(items, ids), Keep(From(items, target), s);
    BlockIds(items, ids);
    forall x | x in a
      ensures x.id != target
    {
      KeptAre(Before(items, target), s, x);
    }
    CutAt(a, c, target);
  }

  /** Leaving out an id that is not there changes nothing. */
  lemma KeepsAbsent(items: seq<Item>, ids: set<int>, id: int)
    requires forall x :: x in items ==> x.id != id
    ensures Keep(items, ids + {id}) == Keep(items, ids)
  {
    forall x | x in Keep(items, ids)
      ensures x.id != id
    {
      KeptAre(items, ids, x);
    }
    KeepTwice(items, ids, {id});
    KeepAll(Keep(items, ids), {id});
  }

  /** One more item, moved before the target, stands behind those moved before it. */
  lemma OneMoreMoved(items: seq<Item>, ids: seq<int>, target: int, id: int)
    requires UniqueIds(items) && id !in ids && target !in ids && id != target
    ensures Moved(AllMoved(items, ids, target), id, target) == AllMoved(items, [id] + ids, target)
  {
    var s, m := IdSet(ids), AllMoved(items, ids, target);
    var a, b, c := Before(items, target), Block(items, ids), From(items, target);
    assert IdSet([id] + ids) == s + {id} && ([id] + ids)[1..] == ids;
    StillThere(items, ids, target, id);
    var i := IndexOf(items, id);
    if i == |items| {
      KeepsAbsent(a, s, id);
      KeepsAbsent(c, s, id);
      assert Block(items, [id] + ids) == b + [];
    } else {
      OneMovedParts(items, ids, target, id);
      assert Block(items, [id] + ids) == b + [items[i]];
      Assoc(Keep(a, s + {id}), b, [items[i]]);
    }
  }

  lemma OneMovedParts(items: seq<Item>, ids: seq<int>, target: int, id: int)
    requires id !in ids && target !in ids
    ensures var s, m := IdSet(ids), AllMoved(items, ids, target);
      && Keep(Before(m, target), {id}) == Keep(Before(items, target), s + {id}) + Block(items, ids)
      && Keep(From(m, target), {id}) == Keep(From(items, target), s + {id})
  {
    var s := IdSet(ids);
    var a, b, c := Before(items, target), Block(items, ids), From(items, target);
    MovedCut(items, ids, target);
    KeepAppend(Keep(a, s), b, {id});
    BlockIds(items, ids);
    KeepAll(b, {id});
    KeepTwice(a, s, {id});
    KeepTwice(c, s, {id});
  }

  /** What move_items computes for any list of ids: one move after the other, from the end. */
  function MovedInTurn(items: seq<Item>, ids: seq<int>, target: int): seq<Item> {
    if ids == [] then items else Moved(MovedInTurn(items, ids[1..], target), ids[0], target)
  }

  lemma NothingMoved(items: seq<Item>, target: int)
    ensures AllMoved(items, [], target) == items
  {
    KeepAll(Before(items, target), IdSet([]));
    KeepAll(From(items, target), IdSet([]));
    assert items == Before(items, target) + [] + From(items, target);
  }

  /** For distinct ids other than the target, the unmoved items keep their order, and the moved
      ones stand directly before the target, or at the end, in the reverse of the list. */
  lemma {:induction false} MovedTogether(items: seq<Item>, ids: seq<int>, target: int)
    requires UniqueIds(items) && NoDup(ids) && target !in ids
    ensures MovedInTurn(items, ids, target) == AllMoved(items, ids, target)
  {
    if ids == [] {
      NothingMoved(items, target);
    } else {
      assert ids == [ids[0]] + ids[1..];
      MovedTogether(items, ids[1..], target);
      OneMoreMoved(items, ids[1..], target, ids[0]);
    }
  }

  /** The block is the list backwards, without the ids that are not in the playlist. */
  lemma {:induction false} BlockIsReversed(items: seq<Item>, ids: seq<int>)
    requires forall x :: x in ids ==> IndexOf(items, x) < |items|
    ensures |Block(items, ids)| == |ids|
    ensures forall k :: 0 <= k < |ids| ==> Block(items, ids)[k].id == ids[|ids| - 1 - k]
  {
    if ids == [] {
    } else {
      assert ids == [ids[0]] + ids[1..];
      BlockIsReversed(items, ids[1..]);
    }
  }

  // ----- nothing is lost or doubled -----

  function Ids(items: seq<Item>): set<int> {
    set x | x in items :: x.id
  }

  lemma {:induction false} UniqueIffCount(items: seq<Item>)
    ensures |Ids(items)| <= |items| && (UniqueIds(items) <==> |Ids(items)| == |items|)
  {
    if items == [] {
    } else {
      var rest := items[1..];
      UniqueIffCount(rest);
      assert items == [items[0]] + rest;
      assert Ids(items) == {items[0].id} + Ids(rest);
      assert items[0].id in Ids(rest) <==> exists k :: 0 <= k < |rest| && rest[k].id == items[0].id;
      assert UniqueIds(items) <==> UniqueIds(rest) && items[0].id !in Ids(rest);
    }
  }

  /** With unique ids, keeping all but one takes out one item. */
  lemma {:induction false} KeepTakesOne(items: seq<Item>, i: nat)
    requires UniqueIds(items) && i < |items|
    ensures Keep(items, {items[i].id}) == items[..i] + items[i + 1..]
  {
    var rest := items[1..];
    if i == 0 {
      KeepAll(rest, {items[0].id});
    } else {
      KeepTakesOne(rest, i - 1);
      assert [items[0]] + rest[..i - 1] == items[..i] && rest[i..] == items[i + 1..];
      Assoc([items[0]], rest[..i - 1], rest[i..]);
    }
  }

  lemma MovedIsSame(items: seq<Item>, id: int, target: int)
    requires UniqueIds(items)
    ensures multiset(Moved(items, id, target)) == multiset(items)
  {
    var i := IndexOf(items, id);
    if i < |items| && id != target {
      var a, c := Before(items, target), From(items, target);
      var ka, kc := Keep(a, {id}), Keep(c, {id});
      assert items == a + c;
      KeepAppend(a, c, {id});
      KeepTakesOne(items, i);
      SameAround(items[..i], items[i + 1..], ka, kc, items[i]);
      Around(items, i);
    }
  }

  lemma Around(items: seq<Item>, i: nat)
    requires i < |items|
    ensures items[..i] + [items[i]] + items[i + 1..] == items
  {
  }

  lemma SameAround(a: seq<Item>, b: seq<Item>, c: seq<Item>, d: seq<Item>, x: Item)
    requires a + b == c + d
    ensures multiset(a + [x] + b) == multiset(c + [x] + d)
  {
    assert multiset(a + b) == multiset(a) + multiset(b);
    assert multiset(c + d) == multiset(c) + multiset(d);
    assert multiset((a + [x]) + b) == multiset(a) + multiset([x]) + multiset(b);
    assert multiset((c + [x]) + d) == multiset(c) + multiset([x]) + multiset(d);
    assert multiset(a) + multiset([x]) + multiset(b) == multiset(a) + multiset(b) + multiset([x]);
    assert multiset(c) + multiset([x]) + multiset(d) == multiset(c) + multiset(d) + multiset([x]);
  }

  lemma SameIds(a: seq<Item>, b: seq<Item>)
    requires multiset(a) == multiset(b) && UniqueIds(b)
    ensures UniqueIds(a)
  {
    forall x
      ensures x in a <==> x in b
    {
      assert x in a <==> x in multiset(a);
      assert x in b <==> x in multiset(b);
    }
    assert Ids(a) == Ids(b);
    assert |a| == |multiset(a)| && |b| == |multiset(b)|;
    UniqueIffCount(a);
    UniqueIffCount(b);
  }

  /** Moving permutes the playlist. */
  lemma MovedPermutes(items: seq<Item>, id: int, target: int)
    requires UniqueIds(items)
    ensures multiset(Moved(items, id, target)) == multiset(items)
    ensures UniqueIds(Moved(items, id, target))
  {
    MovedIsSame(items, id, target);
    SameIds(Moved(items, id, target), items);
  }

  /** A single move: an item that is there and is not the target ends up directly in front of the
      target, or at the end if the target is not there, and all the others keep their order. */
  lemma MovedStands(items: seq<Item>, id: int, target: int)
    requires UniqueIds(items) && id != target && IndexOf(items, id) < |items|
    ensures var m := Moved(items, id, target);
      var k, i := IndexOf(m, id), IndexOf(items, id);
      && k < |m| && m[k] == items[i]
      && (if IndexOf(items, target) < |items| then k + 1 < |m| && m[k + 1].id == target else k + 1 == |m|)
      && m[..k] + m[k + 1..] == items[..i] + items[i + 1..]
  {
    var a, c, i := Before(items, target), From(items, target), IndexOf(items, id);
    assert items == a + c;
    KeepAppend(a, c, {id});
    KeepTakesOne(items, i);
    forall x | x in Keep(a, {id})
      ensures x.id != id
    {
      KeptAre(a, {id}, x);
    }
    PutBetween(Keep(a, {id}), items[i], Keep(c, {id}));
    if c != [] { KeepsFirst(c, {id}); }
  }

  lemma PutBetween(a: seq<Item>, x: Item, c: seq<Item>)
    requires forall y :: y in a ==> y.id != x.id
    ensures var m := a + [x] + c;
      && IndexOf(m, x.id) == |a| && m[|a|] == x && m[..|a|] + m[|a| + 1..] == a + c
      && |m| == |a| + 1 + |c| && (c != [] ==> m[|a| + 1] == c[0])
  {
    IndexOfIs(a + [x] + c, x.id, |a|);
  }

  lemma KeepsFirst(c: seq<Item>, ids: set<int>)
    requires c != [] && c[0].id !in ids
    ensures Keep(c, ids) != [] && Keep(c, ids)[0] == c[0]
  {
  }

  lemma {:induction false} MovingPermutes(items: seq<Item>, ids: seq<int>, target: int)
    requires UniqueIds(items)
    ensures multiset(MovedInTurn(items, ids, target)) == multiset(items)
    ensures UniqueIds(MovedInTurn(items, ids, target))
  {
    if ids == [] {
    } else {
      MovingPermutes(items, ids[1..], target);
      MovedPermutes(MovedInTurn(items, ids[1..], target), ids[0], target);
    }
  }

  // ----- going through the playlist -----

  function NextId(items: seq<Item>, id: int): int {
    var i := IndexOf(items, id);
    if i + 1 < |items| then items[i + 1].id else INVALID
  }

  /** The ids met by asking for the next one until there is none, at most `limit` of them. */
  function Walk(items: seq<Item>, id: int, limit: nat): seq<int>
    decreases limit
  {
    if id == INVALID || limit == 0 then [] else [id] + Walk(items, NextId(items, id), limit - 1)
  }

  /** From any item on, the walk meets the rest of the playlist, once and in order, and stops. */
  lemma {:induction false} WalkMeetsAll(items: seq<Item>, i: nat, limit: nat)
    requires UniqueIds(items) && i < |items| <= i + limit && forall x :: x in items ==> x.id != INVALID
    ensures |Walk(items, items[i].id, limit)| == |items| - i
    ensures forall k :: 0 <= k < |items| - i ==> Walk(items, items[i].id, limit)[k] == items[i + k].id
    decreases |items| - i
  {
    IndexOfIs(items, items[i].id, i);
    assert items[i] in items;
    if i + 1 >= |items| {
    } else {
      WalkMeetsAll(items, i + 1, limit - 1);
    }
  }

  // ----- loading -----

  function NewItems(urls: seq<string>, counter: int): (r: seq<Item>)
    ensures |r| == |urls| && forall i :: 0 <= i < |r| ==> r[i] == Item(counter + i, urls[i])
  {
    seq(|urls|, i requires 0 <= i < |urls| => Item(counter + i, urls[i]))
  }

  function Backwards(items: seq<Item>): (r: seq<Item>)
    ensures |r| == |items| && forall i :: 0 <= i < |r| ==> r[i] == items[|items| - 1 - i]
  {
    if items == [] then [] else Backwards(items[1..]) + [items[0]]
  }

  /** What one line adds. */
  lemma LineItems(line: string, readMetadata: string -> bool, base: string, counter: int)
    ensures NewItems(PlaylistText.UrlOf(line, Accepts(readMetadata, base)), counter) ==
      var url := PlaylistText.Trim(line);
      if url == [] || url[0] == '#' || !readMetadata(base + url) then [] else [Item(counter, url)]
  {
  }

  lemma MoreItems(loaded: seq<Item>, added: seq<Item>, done: seq<string>, more: seq<string>, counter: int, now: int)
    requires loaded == NewItems(done, counter) && added == NewItems(more, now) && now == counter + |done|
    ensures loaded + added == NewItems(done + more, counter)
  {
  }

  lemma BackwardsMore(items: seq<Item>, added: seq<Item>)
    requires |added| <= 1
    ensures Backwards(items + added) == added + Backwards(items)
  {
  }

  /** Where loaded items go: behind the old ones, or in front of them, the last one first. */
  function Placed(items: seq<Item>, loaded: seq<Item>, reverseInsert: bool): seq<Item> {
    if reverseInsert then Backwards(loaded) + items else items + loaded
  }

  /** Item by item: in order behind the old ones, or backwards in front of them. */
  lemma PlacedStand(items: seq<Item>, loaded: seq<Item>, reverseInsert: bool)
    ensures var r := Placed(items, loaded, reverseInsert);
      && |r| == |items| + |loaded|
      && (forall k :: 0 <= k < |loaded| ==> r[if reverseInsert then |loaded| - 1 - k else |items| + k] == loaded[k])
      && (forall k :: 0 <= k < |items| ==> r[if reverseInsert then |loaded| + k else k] == items[k])
  {
    if reverseInsert {
      assert forall k :: 0 <= k < |loaded| ==> Backwards(loaded)[|loaded| - 1 - k] == loaded[k];
    }
  }

  lemma PlacedMore(items: seq<Item>, loaded: seq<Item>, added: seq<Item>, reverseInsert: bool)
    requires |added| <= 1
    ensures Placed(items, loaded + added, reverseInsert) ==
      var placed := Placed(items, loaded, reverseInsert);
      if reverseInsert then added + placed else placed + added
  {
    if reverseInsert {
      BackwardsMore(loaded, added);
      Assoc(added, Backwards(loaded), items);
    } else {
      Assoc(items, loaded, added);
    }
  }

  function Inserted(items: seq<Item>, at: nat, added: seq<Item>): seq<Item>
    requires at <= |items|
  {
    items[..at] + added + items[at..]
  }

  lemma InsertedAtEnds(items: seq<Item>, added: seq<Item>)
    ensures Inserted(items, 0, added) == added + items && Inserted(items, |items|, added) == items + added
  {
  }

  function Accepts(readMetadata: string -> bool, base: string): string -> bool {
    url => readMetadata(base + url)
  }

  function UrlsOf(items: seq<Item>): (r: seq<string>)
    ensures |r| == |items| && forall i :: 0 <= i < |r| ==> r[i] == items[i].url
  {
    seq(|items|, i requires 0 <= i < |items| => items[i].url)
  }

  /** list::splice within one list: element i goes before element j. */
  function Spliced(items: seq<Item>, i: nat, j: nat): seq<Item>
    requires i < |items| && j <= |items| && i != j
  {
    if j < i then items[..j] + [items[i]] + (items[j..i] + items[i + 1..])
    else (items[..i] + items[i + 1..j]) + [items[i]] + items[j..]
  }

  lemma SpliceBack(items: seq<Item>, i: nat, j: nat)
    requires UniqueIds(items) && j < i < |items|
    ensures Keep(items[..j], {items[i].id}) == items[..j]
    ensures Keep(items[j..], {items[i].id}) == items[j..i] + items[i + 1..]
  {
    var c := items[j..];
    KeepAll(items[..j], {items[i].id});
    KeepTakesOne(c, i - j);
    assert c[..i - j] == items[j..i] && c[i - j + 1..] == items[i + 1..];
  }

  lemma SpliceForward(items: seq<Item>, i: nat, j: nat)
    requires UniqueIds(items) && i < j <= |items|
    ensures Keep(items[..j], {items[i].id}) == items[..i] + items[i + 1..j]
    ensures Keep(items[j..], {items[i].id}) == items[j..]
  {
    var a := items[..j];
    KeepAll(items[j..], {items[i].id});
    KeepTakesOne(a, i);
    assert a[..i] == items[..i] && a[i + 1..] == items[i + 1..j];
  }

  /** Splicing by position is moving by id. */
  lemma SpliceIsMoved(items: seq<Item>, i: nat, j: nat, target: int)
    requires UniqueIds(items) && i < |items| && j <= |items| && i != j
    requires IndexOf(items, target) == j && target != items[i].id
    ensures Spliced(items, i, j) == Moved(items, items[i].id, target)
  {
    IndexOfIs(items, items[i].id, i);
    if j < i { SpliceBack(items, i, j); } else { SpliceForward(items, i, j); }
  }

  class Playlist {
    const readMetadata: string -> bool
    var items: seq<Item>
    var idCounter: int
    var basePath: string

    ghost predicate Valid()
      reads this
    {
      UniqueIds(items) && 0 <= idCounter && forall x :: x in items ==> 0 <= x.id < idCounter
    }

    constructor (readMetadata: string -> bool)
      ensures Valid() && items == [] && idCounter == 0 && this.readMetadata == readMetadata
    {
      this.readMetadata := readMetadata;
      items, idCounter, basePath := [], 0, "";
    }

    method Find(id: int) returns (i: nat)
      ensures i == IndexOf(items, id)
    {
      i := 0;
      while i < |items| && items[i].id != id
        invariant i <= |items| && forall j :: 0 <= j < i ==> items[j].id != id
      {
        i := i + 1;
      }
      IndexOfIs(items, id, i);
    }

    method GetNextItemId(id: int) returns (next: int)
      ensures next == NextId(items, id)
      ensures (forall x :: x in items ==> x.id != id) ==> next == INVALID
      ensures UniqueIds(items) ==> forall k {:trigger items[k]} :: 0 <= k < |items| && items[k].id == id ==>
        next == if k + 1 < |items| then items[k + 1].id else INVALID
    {
      var i := Find(id);
      next := if i < |items| && i + 1 < |items| then items[i + 1].id else INVALID;
    }

    method MoveItem(from: int, to: int) returns (moved: bool)
      requires Valid()
      modifies this`items
      ensures Valid() && items == Moved(old(items), from, to)
      ensures moved <==> exists x :: x in old(items) && x.id == from
    {
      MovedPermutes(items, from, to);
      var i := Find(from);
      if i == |items| {
        return false;
      }
      var j := Find(to);
      if i != j {
        SpliceIsMoved(items, i, j, to);
        items := Spliced(items, i, j);
      }
      assert forall x :: x in items ==> x in multiset(old(items));
      moved := true;
    }

    method MoveItems(ids: seq<int>, to: int)
      requires Valid()
      modifies this`items
      ensures Valid() && items == MovedInTurn(old(items), ids, to)
    {
      var k: nat := |ids|;
      while k != 0
        invariant k <= |ids| && Valid() && items == MovedInTurn(old(items), ids[k..], to)
      {
        k := k - 1;
        assert ids[k..][1..] == ids[k + 1..];
        var moved := MoveItem(ids[k], to);
      }
    }

    /** Inserts an item for the url at a position, if its metadata can be read. */
    method AddItem(at: nat, url: string) returns (added: seq<Item>)
      requires Valid() && at <= |items|
      modifies this`items, this`idCounter
      ensures Valid()
      ensures added == if readMetadata(basePath + url) then [Item(old(idCounter), url)] else []
      ensures items == old(items)[..at] + added + old(items)[at..] && idCounter == old(idCounter) + |added|
    {
      added := [];
      if readMetadata(basePath + url) {
        added := [Item(idCounter, url)];
        idCounter := idCounter + 1;
      }
      items := Inserted(items, at, added);
    }

    /** What one line of the file adds. */
    method LoadLine(line: string, reverseInsert: bool) returns (added: seq<Item>)
      requires Valid()
      modifies this`items, this`idCounter
      ensures Valid()
      ensures added == NewItems(PlaylistText.UrlOf(line, Accepts(readMetadata, basePath)), old(idCounter))
      ensures items == if reverseInsert then added + old(items) else old(items) + added
      ensures |added| <= 1 && idCounter == old(idCounter) + |added|
    {
      LineItems(line, readMetadata, basePath, idCounter);
      added := [];
      var url := PlaylistText.Trim(line);
      if url != [] && url[0] != '#' {
        ghost var before := items;
        added := AddItem(if reverseInsert then 0 else |items|, url);
        InsertedAtEnds(before, added);
      }
    }

    /** Reads the text of a playlist file that lies in `base`. */
    method LoadPlaylist(text: string, base: string, reverseInsert: bool) returns (loaded: seq<Item>)
      requires Valid()
      modifies this
      ensures Valid()
      ensures loaded == NewItems(PlaylistText.Urls(text, Accepts(readMetadata, base)), old(idCounter))
      ensures items == Placed(old(items), loaded, reverseInsert)
      ensures basePath == base && idCounter == old(idCounter) + |loaded|
    {
      basePath := base;
      loaded := [];
      var rest := text;
      ghost var accepts := Accepts(readMetadata, base);
      ghost var done: seq<string> := [];
      while rest != []
        invariant Valid() && basePath == base && idCounter == old(idCounter) + |done|
        invariant done + PlaylistText.Urls(rest, accepts) == PlaylistText.Urls(text, accepts)
        invariant loaded == NewItems(done, old(idCounter))
        invariant items == Placed(old(items), loaded, reverseInsert)
        decreases |rest|
      {
        var (line, behind) := PlaylistText.GetLine(rest);
        ghost var more := PlaylistText.UrlOf(line, accepts);
        Assoc(done, more, PlaylistText.Urls(behind, accepts));
        ghost var counter := idCounter;
        var added := LoadLine(line, reverseInsert);
        MoreItems(loaded, added, done, more, old(idCounter), counter);
        PlacedMore(old(items), loaded, added, reverseInsert);
        loaded := loaded + added;
        done := done + more;
        rest := behind;
      }
    }

    method SavePlaylist() returns (text: string)
      ensures text == PlaylistText.SavedText(UrlsOf(items))
    {
      text := [];
      var i := 0;
      while i < |items|
        invariant i <= |items|
        invariant text + PlaylistText.SavedText(UrlsOf(items)[i..]) == PlaylistText.SavedText(UrlsOf(items))
      {
        text := text + (items[i].url + "\n");
        i := i + 1;
      }
    }
  }
}
