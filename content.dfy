/**
 * The `content` list the publisher builds for every outcome of a user
 * (publisherManager.ts, the `generatedContent` dictionary): the items whose
 * notification id is a known trigger, grouped by the trigger's name, groups
 * in first-seen order and events in item order.
 *
 * The specification is stated on prefixes, item by item, as the source's
 * loop goes; `BuildContent` is that loop, proved to produce `GroupedContent`.
 * `BuildContentAsWritten` is the same loop on a plain object, which throws
 * for a trigger name the object inherits.
 */
module Content {
  import opened Wrappers
  import opened NotificationTypes

  /** The event of one item: its operation type, its message and the id of its instance, if any. */
  function ToEvent(d: DataItem): ContentEvent {
    ContentEvent(d.itemType, d.message, d.instance.id)
  }

  /**
   * A helper of `Titles`: the names of the items whose notification id is
   * known, in item order, with repetitions. What the titles mean is stated
   * by `Dedup` and by the lemmas on `GroupedContent`.
   */
  function Names(data: seq<DataItem>, tmap: map<string, Trigger>): (names: seq<string>)
    ensures |names| <= |data|
  {
    if data == [] then []
    else
      var last := data[|data| - 1];
      Names(data[..|data| - 1], tmap)
        + (if last.notificationId in tmap then [tmap[last.notificationId].name] else [])
  }

  /** Each name once, at the place it is first seen. */
  function Dedup(s: seq<string>): (d: seq<string>)
    ensures forall x :: x in d <==> x in s
    ensures forall i, j :: 0 <= i < j < |d| ==> d[i] != d[j]
  {
    if s == [] then []
    else
      var prefix := Dedup(s[..|s| - 1]);
      assert forall x :: x in s <==> x in s[..|s| - 1] || x == s[|s| - 1];
      if s[|s| - 1] in prefix then prefix else prefix + [s[|s| - 1]]
  }

  /** The events of the known items filed under `title`, in item order. */
  function EventsFor(data: seq<DataItem>, tmap: map<string, Trigger>, title: string): seq<ContentEvent> {
    if data == [] then []
    else
      var last := data[|data| - 1];
      EventsFor(data[..|data| - 1], tmap, title)
        + (if last.notificationId in tmap && tmap[last.notificationId].name == title then [ToEvent(last)] else [])
  }

  /** The distinct known names, in first-seen order: the titles of the content groups. */
  function Titles(data: seq<DataItem>, tmap: map<string, Trigger>): seq<string> {
    Dedup(Names(data, tmap))
  }

  /** The `content` list: one group per title, holding that title's events. */
  function GroupedContent(data: seq<DataItem>, tmap: map<string, Trigger>): (groups: seq<ContentGroup>)
    ensures data == [] ==> groups == []
  {
    var titles := Titles(data, tmap);
    seq(|titles|, i requires 0 <= i < |titles| => ContentGroup(titles[i], EventsFor(data, tmap, titles[i])))
  }

  /** Total number of events over a list of groups. */
  function TotalEvents(groups: seq<ContentGroup>): nat {
    if groups == [] then 0 else TotalEvents(groups[..|groups| - 1]) + |groups[|groups| - 1].events|
  }

  /** Appending one item: a known, unseen name becomes the last title; anything else leaves the titles as they are. */
  lemma TitlesStep(prefix: seq<DataItem>, d: DataItem, tmap: map<string, Trigger>)
    ensures Names(prefix + [d], tmap)
      == Names(prefix, tmap) + (if d.notificationId in tmap then [tmap[d.notificationId].name] else [])
    ensures Titles(prefix + [d], tmap)
      == if d.notificationId in tmap && tmap[d.notificationId].name !in Titles(prefix, tmap)
         then Titles(prefix, tmap) + [tmap[d.notificationId].name]
         else Titles(prefix, tmap)
  {
    assert (prefix + [d])[..|prefix|] == prefix;
    var names := Names(prefix, tmap);
    if d.notificationId in tmap {
      var name := tmap[d.notificationId].name;
      assert (names + [name])[..|names|] == names;
    } else {
      assert names + [] == names;
    }
  }

  /** Appending one item adds its event to the events of its own name and to no other. */
  lemma EventsStep(prefix: seq<DataItem>, d: DataItem, tmap: map<string, Trigger>, title: string)
    ensures EventsFor(prefix + [d], tmap, title)
      == EventsFor(prefix, tmap, title)
         + (if d.notificationId in tmap && tmap[d.notificationId].name == title then [ToEvent(d)] else [])
  {
    assert (prefix + [d])[..|prefix|] == prefix;
  }

  /** The loop's dictionary, as keys in insertion order and their values, faithfully files the items seen so far. */
  ghost predicate Filed(seen: seq<DataItem>, tmap: map<string, Trigger>, keys: seq<string>,
                        generatedContent: map<string, seq<ContentEvent>>)
  {
    && keys == Titles(seen, tmap)
    && (forall t :: t in generatedContent <==> t in keys)
    && (forall t :: t in generatedContent ==> generatedContent[t] == EventsFor(seen, tmap, t))
  }

  /**
   * The group-building loop: a JavaScript object updated in place, kept as
   * its keys in insertion order and their values.
   */
  method BuildContent(tmap: map<string, Trigger>, data: seq<DataItem>) returns (content: seq<ContentGroup>)
    ensures content == GroupedContent(data, tmap)
  {
    var keys: seq<string> := [];
    var generatedContent: map<string, seq<ContentEvent>> := map[];
    var index := 0;
    while index < |data|
      invariant 0 <= index <= |data|
      invariant Filed(data[..index], tmap, keys, generatedContent)
    {
      var item := data[index];
      var event := ToEvent(item);
      assert data[..index + 1] == data[..index] + [item];
      if item.notificationId in tmap {
        var notificationName := tmap[item.notificationId].name;
        if notificationName in generatedContent {
          FileSeenName(data[..index], item, tmap, keys, generatedContent);
          generatedContent := generatedContent[notificationName := generatedContent[notificationName] + [event]];
        } else {
          FileNewName(data[..index], item, tmap, keys, generatedContent);
          generatedContent := generatedContent[notificationName := [event]];
          keys := keys + [notificationName];
        }
      } else {
        FileUnknown(data[..index], item, tmap, keys, generatedContent);
      }
      index := index + 1;
    }
    assert data[..index] == data;
    content := seq(|keys|, i requires 0 <= i < |keys| => ContentGroup(keys[i], generatedContent[keys[i]]));
    EntriesAreContent(data, tmap, keys, generatedContent, content);
  }

  lemma FileSeenName(seen: seq<DataItem>, item: DataItem, tmap: map<string, Trigger>, keys: seq<string>,
                     generatedContent: map<string, seq<ContentEvent>>)
    requires Filed(seen, tmap, keys, generatedContent)
    requires item.notificationId in tmap && tmap[item.notificationId].name in generatedContent
    ensures var name := tmap[item.notificationId].name;
      Filed(seen + [item], tmap, keys, generatedContent[name := generatedContent[name] + [ToEvent(item)]])
  {
    TitlesStep(seen, item, tmap);
    forall t { EventsStep(seen, item, tmap, t); }
  }

  lemma FileNewName(seen: seq<DataItem>, item: DataItem, tmap: map<string, Trigger>, keys: seq<string>,
                    generatedContent: map<string, seq<ContentEvent>>)
    requires Filed(seen, tmap, keys, generatedContent)
    requires item.notificationId in tmap && tmap[item.notificationId].name !in generatedContent
    ensures var name := tmap[item.notificationId].name;
      Filed(seen + [item], tmap, keys + [name], generatedContent[name := [ToEvent(item)]])
  {
    var name := tmap[item.notificationId].name;
    assert name !in Titles(seen, tmap);
    TitlesStep(seen, item, tmap);
    NewKey(generatedContent, keys, name, [ToEvent(item)]);
    NewNameEvents(seen, item, tmap, generatedContent);
  }

  /** Filing a value under a new key appends that key to the key list. */
  lemma NewKey(m: map<string, seq<ContentEvent>>, keys: seq<string>, name: string, v: seq<ContentEvent>)
    requires forall t :: t in m <==> t in keys
    ensures forall t :: t in m[name := v] <==> t in keys + [name]
  {
  }

  /** A new name is filed with the one event of its item; the other names keep theirs. */
  lemma NewNameEvents(seen: seq<DataItem>, item: DataItem, tmap: map<string, Trigger>,
                      generatedContent: map<string, seq<ContentEvent>>)
    requires item.notificationId in tmap && tmap[item.notificationId].name !in Titles(seen, tmap)
    requires forall t :: t in generatedContent ==> generatedContent[t] == EventsFor(seen, tmap, t)
    ensures var filed := generatedContent[tmap[item.notificationId].name := [ToEvent(item)]];
      forall t :: t in filed ==> filed[t] == EventsFor(seen + [item], tmap, t)
  {
    var name := tmap[item.notificationId].name;
    var filed := generatedContent[name := [ToEvent(item)]];
    UnseenTitleHasNoEvents(seen, tmap, name);
    forall t | t in filed
      ensures filed[t] == EventsFor(seen + [item], tmap, t)
    {
      EventsStep(seen, item, tmap, t);
      if t == name {
        assert [] + [ToEvent(item)] == [ToEvent(item)];
      } else {
        assert EventsFor(seen, tmap, t) + [] == EventsFor(seen, tmap, t);
      }
    }
  }

  lemma FileUnknown(seen: seq<DataItem>, item: DataItem, tmap: map<string, Trigger>, keys: seq<string>,
                    generatedContent: map<string, seq<ContentEvent>>)
    requires Filed(seen, tmap, keys, generatedContent)
    requires item.notificationId !in tmap
    ensures Filed(seen + [item], tmap, keys, generatedContent)
  {
    TitlesStep(seen, item, tmap);
    forall t { EventsStep(seen, item, tmap, t); }
  }

  /** Listing the dictionary's entries in key-insertion order, once every item has been filed, gives the content list. */
  lemma EntriesAreContent(data: seq<DataItem>, tmap: map<string, Trigger>, keys: seq<string>,
                          generatedContent: map<string, seq<ContentEvent>>, content: seq<ContentGroup>)
    requires keys == Titles(data, tmap)
    requires forall t :: t in generatedContent <==> t in keys
    requires forall t :: t in generatedContent ==> generatedContent[t] == EventsFor(data, tmap, t)
    requires content == seq(|keys|, i requires 0 <= i < |keys| => ContentGroup(keys[i], generatedContent[keys[i]]))
    ensures content == GroupedContent(data, tmap)
  {
  }

  /**
   * The names every plain JavaScript object inherits from `Object.prototype`:
   * looking one of them up in an empty object gives a function (or, for
   * `__proto__`, the prototype itself), which is truthy and not iterable.
   */
  const InheritedNames: set<string> := {
    "constructor", "__defineGetter__", "__defineSetter__", "hasOwnProperty",
    "__lookupGetter__", "__lookupSetter__", "isPrototypeOf", "propertyIsEnumerable",
    "toString", "valueOf", "__proto__", "toLocaleString"}

  /** Some item of a known trigger carries one of the `inherited` names. */
  ghost predicate HitsInherited(data: seq<DataItem>, tmap: map<string, Trigger>, inherited: set<string>) {
    && data != []
    && (|| HitsInherited(data[..|data| - 1], tmap, inherited)
        || IsInherited(data[|data| - 1], tmap, inherited))
  }

  /** The item is of a known trigger whose name is one of the `inherited` names. */
  ghost predicate IsInherited(d: DataItem, tmap: map<string, Trigger>, inherited: set<string>) {
    d.notificationId in tmap && tmap[d.notificationId].name in inherited
  }

  /** `HitsInherited` holds exactly when some item has an inherited name. */
  lemma {:induction false} HitsMeaning(data: seq<DataItem>, tmap: map<string, Trigger>, inherited: set<string>)
    ensures HitsInherited(data, tmap, inherited) <==> exists i :: 0 <= i < |data| && IsInherited(data[i], tmap, inherited)
  {
    if data != [] {
      var prefix := data[..|data| - 1];
      HitsMeaning(prefix, tmap, inherited);
      if HitsInherited(prefix, tmap, inherited) {
        var i :| 0 <= i < |prefix| && IsInherited(prefix[i], tmap, inherited);
        assert data[i] == prefix[i];
      }
      if exists i :: 0 <= i < |data| && IsInherited(data[i], tmap, inherited) {
        var i :| 0 <= i < |data| && IsInherited(data[i], tmap, inherited);
        if i < |prefix| {
          assert prefix[i] == data[i];
        }
      }
    }
  }

  lemma HitsStep(prefix: seq<DataItem>, item: DataItem, tmap: map<string, Trigger>, inherited: set<string>)
    ensures HitsInherited(prefix + [item], tmap, inherited) <==>
      HitsInherited(prefix, tmap, inherited) || (item.notificationId in tmap && tmap[item.notificationId].name in inherited)
  {
    assert (prefix + [item])[..|prefix|] == prefix;
  }

  /**
   * The group-building loop as the source writes it, on a plain object that
   * answers for the names `inherited` (`InheritedNames` for `{}`) without
   * owning them: such a name passes the "already filed" test, and spreading
   * the inherited value throws (`None`). Otherwise it agrees with `BuildContent`.
   */
  method BuildContentAsWritten(tmap: map<string, Trigger>, data: seq<DataItem>, inherited: set<string>) returns (content: Option<seq<ContentGroup>>)
    ensures content.None? <==> HitsInherited(data, tmap, inherited)
    ensures content.Some? ==> content.value == GroupedContent(data, tmap)
  {
    var keys: seq<string> := [];
    var generatedContent: map<string, seq<ContentEvent>> := map[];
    var index := 0;
    while index < |data|
      invariant 0 <= index <= |data|
      invariant FiledAsWritten(data[..index], tmap, keys, generatedContent, inherited)
    {
      var item := data[index];
      var event := ToEvent(item);
      assert data[..index + 1] == data[..index] + [item];
      if item.notificationId in tmap {
        var notificationName := tmap[item.notificationId].name;
        if notificationName in generatedContent {
          FileSeenAsWritten(data[..index], item, tmap, keys, generatedContent, inherited);
          generatedContent := generatedContent[notificationName := generatedContent[notificationName] + [event]];
        } else if notificationName in inherited {
          HitAt(data, index, tmap, inherited);
          return None;
        } else {
          FileNewAsWritten(data[..index], item, tmap, keys, generatedContent, inherited);
          generatedContent := generatedContent[notificationName := [event]];
          keys := keys + [notificationName];
        }
      } else {
        FileUnknownAsWritten(data[..index], item, tmap, keys, generatedContent, inherited);
      }
      index := index + 1;
    }
    assert data[..index] == data;
    var groups := seq(|keys|, i requires 0 <= i < |keys| => ContentGroup(keys[i], generatedContent[keys[i]]));
    EntriesAreContent(data, tmap, keys, generatedContent, groups);
    content := Some(groups);
  }

  /** `Filed`, with no inherited name met so far. */
  ghost predicate FiledAsWritten(seen: seq<DataItem>, tmap: map<string, Trigger>, keys: seq<string>,
                                 generatedContent: map<string, seq<ContentEvent>>, inherited: set<string>)
  {
    Filed(seen, tmap, keys, generatedContent) && !HitsInherited(seen, tmap, inherited)
  }

  /** While no inherited name has been met, none of the names seen is one. */
  lemma {:induction false} SeenNameNotInherited(seen: seq<DataItem>, tmap: map<string, Trigger>, t: string, inherited: set<string>)
    requires !HitsInherited(seen, tmap, inherited) && t in Names(seen, tmap)
    ensures t !in inherited
  {
    var prefix := seen[..|seen| - 1];
    var last := seen[|seen| - 1];
    if !(last.notificationId in tmap && tmap[last.notificationId].name == t) {
      assert t in Names(prefix, tmap);
      SeenNameNotInherited(prefix, tmap, t, inherited);
    }
  }

  lemma FileSeenAsWritten(seen: seq<DataItem>, item: DataItem, tmap: map<string, Trigger>, keys: seq<string>,
                          generatedContent: map<string, seq<ContentEvent>>, inherited: set<string>)
    requires FiledAsWritten(seen, tmap, keys, generatedContent, inherited)
    requires item.notificationId in tmap && tmap[item.notificationId].name in generatedContent
    ensures var name := tmap[item.notificationId].name;
      FiledAsWritten(seen + [item], tmap, keys, generatedContent[name := generatedContent[name] + [ToEvent(item)]], inherited)
  {
    FileSeenName(seen, item, tmap, keys, generatedContent);
    SeenNameNotInherited(seen, tmap, tmap[item.notificationId].name, inherited);
    HitsStep(seen, item, tmap, inherited);
  }

  lemma FileNewAsWritten(seen: seq<DataItem>, item: DataItem, tmap: map<string, Trigger>, keys: seq<string>,
                         generatedContent: map<string, seq<ContentEvent>>, inherited: set<string>)
    requires FiledAsWritten(seen, tmap, keys, generatedContent, inherited)
    requires item.notificationId in tmap && tmap[item.notificationId].name !in generatedContent
    requires tmap[item.notificationId].name !in inherited
    ensures var name := tmap[item.notificationId].name;
      FiledAsWritten(seen + [item], tmap, keys + [name], generatedContent[name := [ToEvent(item)]], inherited)
  {
    FileNewName(seen, item, tmap, keys, generatedContent);
    HitsStep(seen, item, tmap, inherited);
  }

  lemma FileUnknownAsWritten(seen: seq<DataItem>, item: DataItem, tmap: map<string, Trigger>, keys: seq<string>,
                             generatedContent: map<string, seq<ContentEvent>>, inherited: set<string>)
    requires FiledAsWritten(seen, tmap, keys, generatedContent, inherited)
    requires item.notificationId !in tmap
    ensures FiledAsWritten(seen + [item], tmap, keys, generatedContent, inherited)
  {
    FileUnknown(seen, item, tmap, keys, generatedContent);
    HitsStep(seen, item, tmap, inherited);
  }

  /** An item with an inherited name makes the whole list a hit. */
  lemma HitAt(data: seq<DataItem>, i: nat, tmap: map<string, Trigger>, inherited: set<string>)
    requires i < |data| && IsInherited(data[i], tmap, inherited)
    ensures HitsInherited(data, tmap, inherited)
  {
    HitsMeaning(data, tmap, inherited);
  }

  /**
   * A single item of a trigger named `constructor`: the loop as written
   * throws, while the intended grouping gives one group.
   */
  lemma PrototypeNameThrows(tmap: map<string, Trigger>, item: DataItem)
    requires item.notificationId in tmap && tmap[item.notificationId].name == "constructor"
    ensures HitsInherited([item], tmap, InheritedNames)
    ensures GroupedContent([item], tmap) == [ContentGroup("constructor", [ToEvent(item)])]
  {
    assert [item][0] == item;
    SingleItem(tmap, item);
  }

  /** A name not yet seen has no events. */
  lemma {:induction false} UnseenTitleHasNoEvents(data: seq<DataItem>, tmap: map<string, Trigger>, title: string)
    requires title !in Titles(data, tmap)
    ensures EventsFor(data, tmap, title) == []
  {
    if data != [] {
      var prefix := data[..|data| - 1];
      assert forall x :: x in Names(prefix, tmap) ==> x in Names(data, tmap);
      UnseenTitleHasNoEvents(prefix, tmap, title);
    }
  }

  /** One group per distinct known name, and no two groups with the same title. */
  lemma ContentTitlesDistinct(data: seq<DataItem>, tmap: map<string, Trigger>)
    ensures forall i, j :: 0 <= i < j < |GroupedContent(data, tmap)| ==> GroupedContent(data, tmap)[i].title != GroupedContent(data, tmap)[j].title
    ensures forall t :: (exists i :: 0 <= i < |GroupedContent(data, tmap)| && GroupedContent(data, tmap)[i].title == t) <==> t in Names(data, tmap)
  {
    var c := GroupedContent(data, tmap);
    forall t ensures (exists i :: 0 <= i < |c| && c[i].title == t) <==> t in Names(data, tmap) {
      if t in Names(data, tmap) {
        var titles := Titles(data, tmap);
        var i :| 0 <= i < |titles| && titles[i] == t;
        assert c[i].title == t;
      }
    }
  }

  /** An item whose notification id is unknown contributes nothing, wherever it sits. */
  lemma {:induction false} UnknownItemDropped(before: seq<DataItem>, d: DataItem, after: seq<DataItem>, tmap: map<string, Trigger>)
    requires d.notificationId !in tmap
    ensures GroupedContent(before + [d] + after, tmap) == GroupedContent(before + after, tmap)
  {
    NamesSkipUnknown(before, d, after, tmap);
    forall t ensures EventsFor(before + [d] + after, tmap, t) == EventsFor(before + after, tmap, t) {
      EventsSkipUnknown(before, d, after, tmap, t);
    }
  }

  lemma {:induction false} NamesSkipUnknown(before: seq<DataItem>, d: DataItem, after: seq<DataItem>, tmap: map<string, Trigger>)
    requires d.notificationId !in tmap
    ensures Names(before + [d] + after, tmap) == Names(before + after, tmap)
  {
    if after == [] {
      assert (before + [d] + after)[..|before|] == before;
      assert before + after == before;
    } else {
      var front := after[..|after| - 1];
      assert (before + [d] + after)[..|before + [d] + after| - 1] == before + [d] + front;
      assert (before + after)[..|before + after| - 1] == before + front;
      NamesSkipUnknown(before, d, front, tmap);
    }
  }

  lemma {:induction false} EventsSkipUnknown(before: seq<DataItem>, d: DataItem, after: seq<DataItem>, tmap: map<string, Trigger>, title: string)
    requires d.notificationId !in tmap
    ensures EventsFor(before + [d] + after, tmap, title) == EventsFor(before + after, tmap, title)
  {
    if after == [] {
      assert (before + [d] + after)[..|before|] == before;
      assert before + after == before;
    } else {
      var front := after[..|after| - 1];
      assert (before + [d] + after)[..|before + [d] + after| - 1] == before + [d] + front;
      assert (before + after)[..|before + after| - 1] == before + front;
      EventsSkipUnknown(before, d, front, tmap, title);
    }
  }

  /** The sum of events over the groups of a list of titles. */
  function CountIn(data: seq<DataItem>, tmap: map<string, Trigger>, titles: seq<string>): nat {
    if titles == [] then 0
    else CountIn(data, tmap, titles[..|titles| - 1]) + |EventsFor(data, tmap, titles[|titles| - 1])|
  }

  lemma {:induction false} TotalOfGroups(data: seq<DataItem>, tmap: map<string, Trigger>, titles: seq<string>)
    ensures TotalEvents(seq(|titles|, i requires 0 <= i < |titles| => ContentGroup(titles[i], EventsFor(data, tmap, titles[i]))))
      == CountIn(data, tmap, titles)
  {
    if titles != [] {
      var front := titles[..|titles| - 1];
      var groups := seq(|titles|, i requires 0 <= i < |titles| => ContentGroup(titles[i], EventsFor(data, tmap, titles[i])));
      assert groups[..|groups| - 1] == seq(|front|, i requires 0 <= i < |front| => ContentGroup(front[i], EventsFor(data, tmap, front[i])));
      TotalOfGroups(data, tmap, front);
    }
  }

  /** Appending one item grows the count of a list of distinct titles by one exactly when its name is among them. */
  lemma {:induction false} CountInStep(prefix: seq<DataItem>, d: DataItem, tmap: map<string, Trigger>, titles: seq<string>)
    requires forall i, j :: 0 <= i < j < |titles| ==> titles[i] != titles[j]
    ensures CountIn(prefix + [d], tmap, titles)
      == CountIn(prefix, tmap, titles) + (if d.notificationId in tmap && tmap[d.notificationId].name in titles then 1 else 0)
  {
    assert (prefix + [d])[..|prefix|] == prefix;
    if titles != [] {
      var front := titles[..|titles| - 1];
      CountInStep(prefix, d, tmap, front);
    }
  }

  lemma {:induction false} CountOfTitles(data: seq<DataItem>, tmap: map<string, Trigger>)
    ensures CountIn(data, tmap, Titles(data, tmap)) == |Names(data, tmap)|
  {
    if data != [] {
      var prefix := data[..|data| - 1];
      var d := data[|data| - 1];
      assert data == prefix + [d];
      CountOfTitles(prefix, tmap);
      var before := Titles(prefix, tmap);
      CountInStep(prefix, d, tmap, before);
      TitlesStep(prefix, d, tmap);
      if d.notificationId in tmap && tmap[d.notificationId].name !in before {
        var name := tmap[d.notificationId].name;
        assert Titles(data, tmap) == before + [name];
        assert (before + [name])[..|before|] == before;
        UnseenTitleHasNoEvents(prefix, tmap, name);
      }
    }
  }

  /** Every item with a known notification id yields exactly one event, and no other item does. */
  lemma ContentCountsKnownItems(data: seq<DataItem>, tmap: map<string, Trigger>)
    ensures TotalEvents(GroupedContent(data, tmap)) == |Names(data, tmap)|
  {
    TotalOfGroups(data, tmap, Titles(data, tmap));
    CountOfTitles(data, tmap);
  }

  /** A later item whose name is already a title appends its event to that group and changes no other group. */
  lemma ContentAppendSeen(prefix: seq<DataItem>, d: DataItem, tmap: map<string, Trigger>, i: nat)
    requires d.notificationId in tmap
    requires i < |GroupedContent(prefix, tmap)| && GroupedContent(prefix, tmap)[i].title == tmap[d.notificationId].name
    ensures GroupedContent(prefix + [d], tmap)
      == GroupedContent(prefix, tmap)[i := ContentGroup(tmap[d.notificationId].name, GroupedContent(prefix, tmap)[i].events + [ToEvent(d)])]
  {
    var name := tmap[d.notificationId].name;
    var titles := Titles(prefix, tmap);
    var c, c' := GroupedContent(prefix, tmap), GroupedContent(prefix + [d], tmap);
    assert titles[i] == name;
    TitlesStep(prefix, d, tmap);
    assert |c'| == |c|;
    forall j | 0 <= j < |c|
      ensures c'[j] == c[i := ContentGroup(name, c[i].events + [ToEvent(d)])][j]
    {
      EventsStep(prefix, d, tmap, titles[j]);
    }
  }

  /** An item whose name is not yet a title opens a new last group holding just its event. */
  lemma ContentAppendNew(prefix: seq<DataItem>, d: DataItem, tmap: map<string, Trigger>)
    requires d.notificationId in tmap && tmap[d.notificationId].name !in Titles(prefix, tmap)
    ensures GroupedContent(prefix + [d], tmap)
      == GroupedContent(prefix, tmap) + [ContentGroup(tmap[d.notificationId].name, [ToEvent(d)])]
  {
    var name := tmap[d.notificationId].name;
    var titles := Titles(prefix, tmap);
    var c, c' := GroupedContent(prefix, tmap), GroupedContent(prefix + [d], tmap);
    TitlesStep(prefix, d, tmap);
    UnseenTitleHasNoEvents(prefix, tmap, name);
    var titles' := Titles(prefix + [d], tmap);
    assert titles' == titles + [name];
    assert |c'| == |c| + 1;
    forall j | 0 <= j < |c'|
      ensures c'[j] == (c + [ContentGroup(name, [ToEvent(d)])])[j]
    {
      EventsStep(prefix, d, tmap, titles'[j]);
      if j < |c| {
        assert titles'[j] == titles[j] != name;
        assert c'[j] == ContentGroup(titles[j], EventsFor(prefix + [d], tmap, titles[j]));
      } else {
        assert titles'[j] == name;
        assert [] + [ToEvent(d)] == [ToEvent(d)];
      }
    }
  }

  /** The content of one known item. */
  lemma SingleItem(tmap: map<string, Trigger>, a1: DataItem)
    requires a1.notificationId in tmap
    ensures GroupedContent([a1], tmap) == [ContentGroup(tmap[a1.notificationId].name, [ToEvent(a1)])]
    ensures Titles([a1], tmap) == [tmap[a1.notificationId].name]
  {
    var s0: seq<DataItem> := [];
    var g := ContentGroup(tmap[a1.notificationId].name, [ToEvent(a1)]);
    assert s0 + [a1] == [a1];
    assert Names(s0, tmap) == [];
    assert Titles(s0, tmap) == [];
    TitlesStep(s0, a1, tmap);
    ContentAppendNew(s0, a1, tmap);
    assert GroupedContent(s0, tmap) + [g] == [g];
  }

  /** Two known items of different names make two groups. */
  lemma TwoNames(tmap: map<string, Trigger>, a1: DataItem, b: DataItem)
    requires a1.notificationId in tmap && b.notificationId in tmap
    requires tmap[a1.notificationId].name != tmap[b.notificationId].name
    ensures GroupedContent([a1, b], tmap) == [
      ContentGroup(tmap[a1.notificationId].name, [ToEvent(a1)]),
      ContentGroup(tmap[b.notificationId].name, [ToEvent(b)])]
  {
    SingleItem(tmap, a1);
    assert [a1] + [b] == [a1, b];
    ContentAppendNew([a1], b, tmap);
  }

  /**
   * Items `a1, b, a2` where `a1` and `a2` share a name: two groups, the
   * first holding both of its events in order.
   */
  lemma MergeExample(tmap: map<string, Trigger>, a1: DataItem, b: DataItem, a2: DataItem)
    requires a1.notificationId in tmap && b.notificationId in tmap && a2.notificationId in tmap
    requires tmap[a1.notificationId].name == tmap[a2.notificationId].name
    requires tmap[a1.notificationId].name != tmap[b.notificationId].name
    ensures GroupedContent([a1, b, a2], tmap) == [
      ContentGroup(tmap[a1.notificationId].name, [ToEvent(a1), ToEvent(a2)]),
      ContentGroup(tmap[b.notificationId].name, [ToEvent(b)])]
  {
    TwoNames(tmap, a1, b);
    assert [a1, b] + [a2] == [a1, b, a2];
    ContentAppendSeen([a1, b], a2, tmap, 0);
    assert [ToEvent(a1)] + [ToEvent(a2)] == [ToEvent(a1), ToEvent(a2)];
  }
}
