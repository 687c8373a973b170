/**
 * The domain rules of outcome-domain.ts: the connector and schema gate of
 * `addOutcome`, the `authorized_members` rewrite of `outcomeEdit`, the
 * removal in `outcomeDelete`, the store-then-static merge of
 * `getOutcomes` and the name-sorted merge of `usableOutcomes`.
 *
 * The entity store is a class holding a map from internal id to Outcome,
 * with the messages published on the bus; `BUILTIN_OUTCOMES_CONNECTORS`
 * and `STATIC_OUTCOMES` are constants of the store, and `JSON.parse` and
 * Ajv are function-valued parameters.
 */
module OutcomeDomain {
  import opened Wrappers
  import opened JsonValues
  import opened OutcomeTypes

  /** The one authority `addOutcome` grants. */
  const SettingsAuthority: string := "SETTINGS"
  /** The edit key whose values `outcomeEdit` rewrites. */
  const AuthorizedMembersKey: string := "authorized_members"
  /** `MEMBER_ACCESS_RIGHT_VIEW` */
  const MemberAccessRightView: string := "view"

  /** An entry of `BUILTIN_OUTCOMES_CONNECTORS`: its `connector_schema`, a JSON Schema text that may be absent. */
  datatype ConnectorDef = ConnectorDef(schema: Option<string>)

  /** `JSON.parse` (None: it throws) and Ajv, as opaque functions. */
  datatype Validator = Validator(
    parse: string -> Option<Json>,
    compiles: Json -> bool,              // `ajv.compile` accepts the schema
    accepts: (Json, Json) -> bool)       // the compiled validator's verdict on (schema, data)

  /** What the operations throw. */
  datatype OutcomeError =
    | InvalidConnector(connectorId: string)            // 'Invalid outcome connector'
    | MalformedJson(text: string)                      // `JSON.parse` throws
    | InvalidSchema(schema: string)                    // `ajv.compile` throws
    | InvalidConfiguration(configuration: string)      // 'This configuration is invalid'
    | NotFound(id: string)                             // the store has no such element

  /** `OutcomeAddInput` */
  datatype AddInput = AddInput(
    name: string,
    description: string,
    connectorId: string,
    configuration: string,
    authorizedMembers: seq<AuthorizedMember>)

  /** A value of an `EditInput`: a plain value, or the `{id, access_right}` object built around one. */
  datatype EditValue = Plain(text: string) | MemberRef(id: EditValue, accessRight: string)

  /** `EditInput`: a key and its list of values. */
  datatype EditItem = EditItem(key: string, value: seq<EditValue>)

  /** What `notify` publishes on the Outcome topics. */
  datatype BusMessage = Added(entity: Outcome) | Edited(entity: Outcome) | Deleted(entity: Outcome)

  /** The connector id names a built-in connector whose schema is present and not empty. */
  predicate UsableConnector(connectors: map<string, ConnectorDef>, connectorId: string) {
    connectorId in connectors && connectors[connectorId].schema.Some? && connectors[connectorId].schema.value != ""
  }

  /**
   * The checks `addOutcome` runs before creating anything, in the order
   * the source runs them: the connector, `JSON.parse` of its schema,
   * `ajv.compile`, `JSON.parse` of the configuration, and validation.
   */
  function CheckAdd(connectors: map<string, ConnectorDef>, v: Validator, input: AddInput): (r: Result<(), OutcomeError>)
    ensures r == Err(InvalidConnector(input.connectorId)) <==> !UsableConnector(connectors, input.connectorId)
    ensures r.Ok? <==>
      && UsableConnector(connectors, input.connectorId)
      && v.parse(connectors[input.connectorId].schema.value).Some?
      && v.compiles(v.parse(connectors[input.connectorId].schema.value).value)
      && v.parse(input.configuration).Some?
      && v.accepts(v.parse(connectors[input.connectorId].schema.value).value, v.parse(input.configuration).value)
    ensures r.Err? && r.error.InvalidConfiguration? ==> r.error.configuration == input.configuration
    ensures r.Err? ==> !r.error.NotFound?
    ensures UsableConnector(connectors, input.connectorId) ==>
      var schemaText := connectors[input.connectorId].schema.value;
      && (v.parse(schemaText).None? ==> r == Err(MalformedJson(schemaText)))
      && (v.parse(schemaText).Some? && !v.compiles(v.parse(schemaText).value) ==> r == Err(InvalidSchema(schemaText)))
      && (v.parse(schemaText).Some? && v.compiles(v.parse(schemaText).value) && v.parse(input.configuration).None? ==>
            r == Err(MalformedJson(input.configuration)))
      && (v.parse(schemaText).Some? && v.compiles(v.parse(schemaText).value) && v.parse(input.configuration).Some?
          && !v.accepts(v.parse(schemaText).value, v.parse(input.configuration).value) ==>
            r == Err(InvalidConfiguration(input.configuration)))
  {
    if !UsableConnector(connectors, input.connectorId) then Err(InvalidConnector(input.connectorId))
    else
      var schemaText := connectors[input.connectorId].schema.GetOr("{}");
      match v.parse(schemaText)
      case None => Err(MalformedJson(schemaText))
      case Some(schema) =>
        if !v.compiles(schema) then Err(InvalidSchema(schemaText))
        else
          match v.parse(input.configuration)
          case None => Err(MalformedJson(input.configuration))
          case Some(config) =>
            if v.accepts(schema, config) then Ok(()) else Err(InvalidConfiguration(input.configuration))
  }

  /** The entity `createEntity` stores for an accepted input: the input's fields, no `built_in` field, the timestamps, and the SETTINGS authority. */
  function NewOutcome(id: string, input: AddInput, created: string, updated: string): Outcome {
    Outcome(id, input.name, input.description, None, input.connectorId, input.configuration,
            input.authorizedMembers, [SettingsAuthority], created, updated)
  }

  /** The rewrite of one edit item in `outcomeEdit`. */
  function RewriteItem(item: EditItem): (r: EditItem)
    ensures r.key == item.key && |r.value| == |item.value|
    ensures forall j :: 0 <= j < |r.value| ==>
      r.value[j] == (if item.key == AuthorizedMembersKey then MemberRef(item.value[j], MemberAccessRightView) else item.value[j])
  {
    if item.key == AuthorizedMembersKey then
      EditItem(item.key, seq(|item.value|, j requires 0 <= j < |item.value| => MemberRef(item.value[j], MemberAccessRightView)))
    else item
  }

  /** `finalInput` of `outcomeEdit`: every item rewritten, in order. */
  function RewriteEdits(input: seq<EditItem>): (r: seq<EditItem>)
    ensures |r| == |input|
    ensures forall i :: 0 <= i < |r| ==> r[i].key == input[i].key
    ensures forall i :: 0 <= i < |r| && input[i].key != AuthorizedMembersKey ==> r[i] == input[i]
  {
    seq(|input|, i requires 0 <= i < |input| => RewriteItem(input[i]))
  }

  /** The ids of an `authorized_members` value list, with the access right taken off. */
  function MemberIds(values: seq<EditValue>): seq<EditValue> {
    seq(|values|, j requires 0 <= j < |values| => if values[j].MemberRef? then values[j].id else values[j])
  }

  /** Undo the rewrite of one item. */
  function RestoreItem(item: EditItem): EditItem {
    if item.key == AuthorizedMembersKey then EditItem(item.key, MemberIds(item.value)) else item
  }

  /** Every rewritten member id carries the view access right. */
  lemma RewriteGrantsView(input: seq<EditItem>, i: nat, j: nat)
    requires i < |input| && input[i].key == AuthorizedMembersKey && j < |input[i].value|
    ensures j < |RewriteEdits(input)[i].value|
    ensures RewriteEdits(input)[i].value[j] == MemberRef(input[i].value[j], MemberAccessRightView)
  {
    assert RewriteEdits(input)[i] == RewriteItem(input[i]);
  }

  /** The rewrite loses nothing: taking the access rights off gives the input back. */
  lemma RewriteRestores(input: seq<EditItem>)
    ensures seq(|input|, i requires 0 <= i < |input| => RestoreItem(RewriteEdits(input)[i])) == input
  {
    var r := RewriteEdits(input);
    forall i | 0 <= i < |input|
      ensures RestoreItem(r[i]) == input[i]
    {
      assert r[i] == RewriteItem(input[i]);
      if input[i].key == AuthorizedMembersKey {
        assert MemberIds(r[i].value) == input[i].value;
      }
    }
  }

  /** The rewrite works item by item, so editing two lists in turn is editing their concatenation. */
  lemma RewriteConcat(a: seq<EditItem>, b: seq<EditItem>)
    ensures RewriteEdits(a + b) == RewriteEdits(a) + RewriteEdits(b)
  {
    var l := RewriteEdits(a + b);
    var r := RewriteEdits(a) + RewriteEdits(b);
    forall i | 0 <= i < |a + b|
      ensures l[i] == r[i]
    {
      assert l[i] == RewriteItem((a + b)[i]);
      if i < |a| {
        assert r[i] == RewriteItem(a[i]);
      } else {
        assert r[i] == RewriteEdits(b)[i - |a|] == RewriteItem(b[i - |a|]);
      }
    }
  }

  /** The static outcomes whose id is among the requested ids, in static-list order. */
  function StaticMatches(statics: seq<Outcome>, ids: seq<string>): (r: seq<Outcome>)
    ensures |r| <= |statics|
    ensures forall o :: o in r <==> o in statics && o.id in ids
  {
    if statics == [] then []
    else (if statics[0].id in ids then [statics[0]] else []) + StaticMatches(statics[1..], ids)
  }

  /** The filter keeps the static list's order: it distributes over concatenation. */
  lemma {:induction false} StaticMatchesConcat(a: seq<Outcome>, b: seq<Outcome>, ids: seq<string>)
    ensures StaticMatches(a + b, ids) == StaticMatches(a, ids) + StaticMatches(b, ids)
  {
    if a == [] {
      assert a + b == b;
    } else {
      assert (a + b)[0] == a[0];
      assert (a + b)[1..] == a[1..] + b;
      StaticMatchesConcat(a[1..], b, ids);
    }
  }

  /** JavaScript `<` on two strings: by character, a proper prefix first. */
  predicate StringLess(a: string, b: string) {
    if a == [] then b != []
    else if b == [] then false
    else if a[0] != b[0] then a[0] < b[0]
    else StringLess(a[1..], b[1..])
  }

  lemma {:induction false} StringLessIrreflexive(a: string)
    ensures !StringLess(a, a)
  {
    if a != [] {
      StringLessIrreflexive(a[1..]);
    }
  }

  lemma {:induction false} StringLessTransitive(a: string, b: string, c: string)
    requires StringLess(a, b) && StringLess(b, c)
    ensures StringLess(a, c)
  {
    if a != [] && b != [] && c != [] && a[0] == b[0] == c[0] {
      StringLessTransitive(a[1..], b[1..], c[1..]);
    }
  }

  /** Two strings neither of which is less than the other are equal, so the comparator's 0 means equal names. */
  lemma {:induction false} StringLessTotal(a: string, b: string)
    ensures StringLess(a, b) || StringLess(b, a) || a == b
  {
    if a != [] && b != [] && a[0] == b[0] {
      StringLessTotal(a[1..], b[1..]);
      if a[1..] == b[1..] {
        assert a == [a[0]] + a[1..] && b == [b[0]] + b[1..];
      }
    }
  }

  /** "Not less" is transitive. */
  lemma NotLessTransitive(a: string, b: string, c: string)
    requires !StringLess(b, a) && !StringLess(c, b)
    ensures !StringLess(c, a)
  {
    StringLessTotal(a, b);
    StringLessTotal(b, c);
    if StringLess(c, a) {
      if StringLess(a, b) && StringLess(b, c) {
        StringLessTransitive(a, b, c);
        StringLessTransitive(c, a, c);
        StringLessIrreflexive(c);
      } else if StringLess(a, b) {
        StringLessTransitive(c, a, b);
        StringLessIrreflexive(b);
      } else if StringLess(b, c) {
        StringLessTransitive(b, c, a);
        StringLessIrreflexive(a);
      } else {
        StringLessIrreflexive(a);
      }
    }
  }

  /** Non-decreasing by name under the source's comparator. */
  predicate SortedByName(s: seq<Outcome>) {
    forall i, j :: 0 <= i < j < |s| ==> !StringLess(s[j].name, s[i].name)
  }

  /** The outcomes of a list named `n`, in list order. */
  function Named(s: seq<Outcome>, n: string): seq<Outcome> {
    if s == [] then []
    else (if s[0].name == n then [s[0]] else []) + Named(s[1..], n)
  }

  /** Insert `x` before the first element whose name is not less than its own. */
  function Insert(x: Outcome, s: seq<Outcome>): seq<Outcome> {
    if s == [] || !StringLess(s[0].name, x.name) then [x] + s
    else [s[0]] + Insert(x, s[1..])
  }

  /** The stable sort of `usableOutcomes`, as an insertion sort. */
  function SortByName(s: seq<Outcome>): seq<Outcome> {
    if s == [] then [] else Insert(s[0], SortByName(s[1..]))
  }

  lemma {:induction false} InsertPermutes(x: Outcome, s: seq<Outcome>)
    ensures multiset(Insert(x, s)) == multiset{x} + multiset(s)
    decreases |s|
  {
    if s != [] && StringLess(s[0].name, x.name) {
      InsertPermutes(x, s[1..]);
      assert s == [s[0]] + s[1..];
    }
  }

  /** The sort is a permutation of its input. */
  lemma {:induction false} SortPermutes(s: seq<Outcome>)
    ensures multiset(SortByName(s)) == multiset(s)
  {
    if s != [] {
      SortPermutes(s[1..]);
      InsertPermutes(s[0], SortByName(s[1..]));
      assert s == [s[0]] + s[1..];
    }
  }

  lemma {:induction false} InsertSorted(x: Outcome, s: seq<Outcome>)
    requires SortedByName(s)
    ensures SortedByName(Insert(x, s))
    decreases |s|
  {
    var r := Insert(x, s);
    if s == [] || !StringLess(s[0].name, x.name) {
      forall i, j | 0 <= i < j < |r|
        ensures !StringLess(r[j].name, r[i].name)
      {
        assert r[j] == s[j - 1];
        if i == 0 {
          StringLessIrreflexive(s[0].name);
          NotLessTransitive(x.name, s[0].name, s[j - 1].name);
        } else {
          assert r[i] == s[i - 1];
        }
      }
    } else {
      var t := Insert(x, s[1..]);
      InsertSorted(x, s[1..]);
      InsertPermutes(x, s[1..]);
      forall k | 0 <= k < |t|
        ensures !StringLess(t[k].name, s[0].name)
      {
        assert t[k] in multiset(t);
        if t[k] == x {
          if StringLess(x.name, s[0].name) {
            StringLessTransitive(s[0].name, x.name, s[0].name);
            StringLessIrreflexive(s[0].name);
          }
        } else {
          assert t[k] in multiset(s[1..]);
          var m :| 0 <= m < |s[1..]| && s[1..][m] == t[k];
          assert s[m + 1] == t[k];
        }
      }
    }
  }

  lemma {:induction false} SortSorted(s: seq<Outcome>)
    ensures SortedByName(SortByName(s))
  {
    if s != [] {
      SortSorted(s[1..]);
      InsertSorted(s[0], SortByName(s[1..]));
    }
  }

  lemma NamedCons(y: Outcome, t: seq<Outcome>, n: string)
    ensures Named([y] + t, n) == (if y.name == n then [y] else []) + Named(t, n)
  {
    assert ([y] + t)[0] == y && ([y] + t)[1..] == t;
  }

  /** Insertion puts `x` ahead of the outcomes that share its name: it passes only names less than its own. */
  lemma {:induction false} InsertNamed(x: Outcome, s: seq<Outcome>, n: string)
    ensures Named(Insert(x, s), n) == (if x.name == n then [x] else []) + Named(s, n)
    decreases |s|
  {
    if s == [] || !StringLess(s[0].name, x.name) {
      NamedCons(x, s, n);
    } else {
      var t := Insert(x, s[1..]);
      var rest := Named(s[1..], n);
      assert Insert(x, s) == [s[0]] + t;
      InsertNamed(x, s[1..], n);
      NamedCons(s[0], t, n);
      if x.name == n {
        StringLessIrreflexive(n);
        assert s[0].name != n;
        assert Named(t, n) == [x] + rest;
      } else {
        assert Named(t, n) == [] + rest == rest;
      }
    }
  }

  /** The sort is stable: the outcomes of each name keep their input order. */
  lemma {:induction false} SortStable(s: seq<Outcome>, n: string)
    ensures Named(SortByName(s), n) == Named(s, n)
  {
    if s != [] {
      SortStable(s[1..], n);
      InsertNamed(s[0], SortByName(s[1..]), n);
      NamedCons(s[0], s[1..], n);
      assert s == [s[0]] + s[1..];
    }
  }

  /** `hits` is what `internalFindByIds` returns: each stored outcome whose id is in `ids`, once, in some order. */
  predicate FoundByIds(hits: seq<Outcome>, entities: map<string, Outcome>, ids: seq<string>) {
    && (forall i :: 0 <= i < |hits| ==> hits[i].id in ids && hits[i].id in entities && entities[hits[i].id] == hits[i])
    && (forall i, j :: 0 <= i < j < |hits| ==> hits[i].id != hits[j].id)
    && (forall id :: id in entities && id in ids ==> exists i :: 0 <= i < |hits| && hits[i].id == id)
  }

  /** `hits` is what `listAllEntities` returns: each stored outcome, once, in some order. */
  predicate ListsAll(hits: seq<Outcome>, entities: map<string, Outcome>) {
    && (forall i :: 0 <= i < |hits| ==> hits[i].id in entities && entities[hits[i].id] == hits[i])
    && (forall i, j :: 0 <= i < j < |hits| ==> hits[i].id != hits[j].id)
    && (forall id :: id in entities ==> exists i :: 0 <= i < |hits| && hits[i].id == id)
  }

  lemma ListedAll(hits: seq<Outcome>, statics: seq<Outcome>, entities: map<string, Outcome>)
    requires ListsAll(hits, entities)
    ensures forall id :: id in entities ==> entities[id] in multiset(hits + statics)
    ensures forall o :: o in statics ==> o in multiset(hits + statics)
  {
    forall id | id in entities
      ensures entities[id] in multiset(hits + statics)
    {
      var i :| 0 <= i < |hits| && hits[i].id == id;
      assert (hits + statics)[i] == entities[id];
    }
  }

  /** The outcome entity store. */
  class OutcomeStore {
    /** `BUILTIN_OUTCOMES_CONNECTORS`, keyed by connector id. */
    const connectors: map<string, ConnectorDef>
    /** `STATIC_OUTCOMES` */
    const statics: seq<Outcome>
    const validator: Validator

    /** The stored Outcome entities, by internal id. */
    var entities: map<string, Outcome>
    /** What was published on the Outcome bus topics, in order. */
    var published: seq<BusMessage>

    constructor(connectors: map<string, ConnectorDef>, statics: seq<Outcome>, validator: Validator)
      ensures this.connectors == connectors && this.statics == statics && this.validator == validator
      ensures entities == map[] && published == []
    {
      this.connectors := connectors;
      this.statics := statics;
      this.validator := validator;
      entities := map[];
      published := [];
    }

    /**
     * `addOutcome`: refuse an unusable connector or a configuration the
     * connector's schema rejects, creating nothing; otherwise store one new
     * entity under the id the store generates and publish it.
     */
    method AddOutcome(input: AddInput, freshId: string, created: string, updated: string) returns (r: Result<Outcome, OutcomeError>)
      requires freshId !in entities
      modifies this
      ensures r.Ok? <==> CheckAdd(connectors, validator, input).Ok?
      ensures r.Err? ==> r.error == CheckAdd(connectors, validator, input).error
      ensures r.Err? ==> entities == old(entities) && published == old(published)
      ensures r.Ok? ==> r.value == NewOutcome(freshId, input, created, updated)
      ensures r.Ok? ==> entities == old(entities)[freshId := r.value] && published == old(published) + [Added(r.value)]
    {
      var check := CheckAdd(connectors, validator, input);
      if check.Err? {
        return Err(check.error);
      }
      var outcome := NewOutcome(freshId, input, created, updated);
      entities := entities[freshId := outcome];
      published := published + [Added(outcome)];
      return Ok(outcome);
    }

    /**
     * `outcomeEdit`: rewrite the input and hand it to `updateAttribute`,
     * given here as `update`; an unknown id throws and changes nothing.
     */
    method OutcomeEdit(id: string, input: seq<EditItem>, update: (Outcome, seq<EditItem>) -> Outcome)
      returns (r: Result<Outcome, OutcomeError>)
      modifies this
      ensures id !in old(entities) ==> r == Err(NotFound(id)) && entities == old(entities) && published == old(published)
      ensures id in old(entities) ==> r == Ok(update(old(entities)[id], RewriteEdits(input)))
      ensures id in old(entities) ==> entities == old(entities)[id := r.value] && published == old(published) + [Edited(r.value)]
    {
      if id !in entities {
        return Err(NotFound(id));
      }
      var updated := update(entities[id], RewriteEdits(input));
      entities := entities[id := updated];
      published := published + [Edited(updated)];
      return Ok(updated);
    }

    /** `outcomeDelete`: remove the entity, publish it, and return the id it was given. */
    method OutcomeDelete(id: string) returns (r: Result<string, OutcomeError>)
      modifies this
      ensures id !in old(entities) ==> r == Err(NotFound(id)) && entities == old(entities) && published == old(published)
      ensures id in old(entities) ==> r == Ok(id)
      ensures id in old(entities) ==> entities == old(entities) - {id} && published == old(published) + [Deleted(old(entities)[id])]
    {
      if id !in entities {
        return Err(NotFound(id));
      }
      var element := entities[id];
      entities := entities - {id};
      published := published + [Deleted(element)];
      return Ok(id);
    }

    /** `getOutcomes`: the stored matches, then the static outcomes whose id is asked for. */
    function GetOutcomes(ids: seq<string>, hits: seq<Outcome>): (r: seq<Outcome>)
      reads this
      requires FoundByIds(hits, entities, ids)
      ensures |r| == |hits| + |StaticMatches(statics, ids)|
      ensures r[..|hits|] == hits && r[|hits|..] == StaticMatches(statics, ids)
      ensures forall o :: o in r ==> o.id in ids
      ensures forall id :: id in entities && id in ids ==> entities[id] in r
      ensures forall o :: o in r ==> (o.id in entities && entities[o.id] == o) || o in statics
    {
      hits + StaticMatches(statics, ids)
    }

    /** `usableOutcomes`: every stored outcome and every static one, stably sorted by name. */
    function UsableOutcomes(hits: seq<Outcome>): (r: seq<Outcome>)
      reads this
      requires ListsAll(hits, entities)
      ensures SortedByName(r)
      ensures multiset(r) == multiset(hits + statics)
      ensures forall id :: id in entities ==> entities[id] in r
      ensures forall o :: o in statics ==> o in r
    {
      SortSorted(hits + statics);
      SortPermutes(hits + statics);
      ListedAll(hits, statics, entities);
      SortByName(hits + statics)
    }
  }

  /** In `usableOutcomes`, outcomes of the same name keep the order stored-then-static. */
  lemma UsableOutcomesStable(store: OutcomeStore, hits: seq<Outcome>, n: string)
    requires ListsAll(hits, store.entities)
    ensures Named(store.UsableOutcomes(hits), n) == Named(hits + store.statics, n)
  {
    SortStable(hits + store.statics, n);
  }
}
