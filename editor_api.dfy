/** The editor's calls to the server (front/src/applications/editor/data/api.ts),
    once the HTTP requests are taken out: the payload `editorSave` posts, the
    per-layer schema `getEditorSchema` derives from the fetched JSON schema,
    and the per-layer entities `getEditorData` builds from fetched features. */
module EditorApi {
  import opened Common

  /** A JSON value. */
  datatype Json =
    | JNull
    | JBool(b: bool)
    | JNum(n: real)
    | JStr(s: string)
    | JArr(items: seq<Json>)
    | JObj(fields: map<string, Json>)

  /** An object of a layer as the editor holds it; its id is the one its
      properties carry, absent when they carry none. */
  datatype EditorEntity = EditorEntity(
    id: Option<Json>,
    objType: string,
    geometry: Json,
    properties: map<string, Json>)

  // ---------------------------------------------------------------------------
  // editorSave

  /** One entry of the posted list. */
  datatype Operation =
    | Create(objType: string, railjson: map<string, Json>)
    | Update(objId: Option<Json>, objType: string, railjsonPatch: map<string, Json>)
    | Delete(objId: Option<Json>, objType: string)

  /** The three optional lists `editorSave` receives. */
  datatype SaveOperations = SaveOperations(
    create: Option<seq<EditorEntity>>,
    update: Option<seq<EditorEntity>>,
    remove: Option<seq<EditorEntity>>)

  /** The three fields a created object is given; its properties come after
      them and override them. */
  const GeneratedFields: set<string> := {"id", "geo", "sch"}

  /** The railjson of a created object, given the fresh id drawn for it. */
  function CreateRailjson(freshId: string, feature: EditorEntity): (r: map<string, Json>)
    ensures r.Keys == GeneratedFields + feature.properties.Keys
    ensures forall k :: k in feature.properties ==> r[k] == feature.properties[k]
    ensures "id" !in feature.properties ==> r["id"] == JStr(freshId)
    ensures "geo" !in feature.properties ==> r["geo"] == feature.geometry
    ensures "sch" !in feature.properties ==> r["sch"] == feature.geometry
  {
    map["id" := JStr(freshId), "geo" := feature.geometry, "sch" := feature.geometry] + feature.properties
  }

  /** `uuid(i)` is the id the i-th call to the id generator returns. */
  function CreateOperations(features: seq<EditorEntity>, uuid: nat -> string): seq<Operation> {
    seq(|features|, i requires 0 <= i < |features| =>
      Create(features[i].objType, CreateRailjson(uuid(i), features[i])))
  }

  function UpdateOperations(features: seq<EditorEntity>): seq<Operation> {
    seq(|features|, i requires 0 <= i < |features| =>
      Update(features[i].id, features[i].objType, features[i].properties))
  }

  function DeleteOperations(features: seq<EditorEntity>): seq<Operation> {
    seq(|features|, i requires 0 <= i < |features| => Delete(features[i].id, features[i].objType))
  }

  /** The posted list: the creations, then the updates, then the deletions,
      each in input order; a missing list counts as empty. */
  function SavePayload(ops: SaveOperations, uuid: nat -> string): (r: seq<Operation>)
    ensures var c, u, d := ops.create.GetOr([]), ops.update.GetOr([]), ops.remove.GetOr([]);
      && |r| == |c| + |u| + |d|
      && (forall i :: 0 <= i < |c| ==> r[i] == Create(c[i].objType, CreateRailjson(uuid(i), c[i])))
      && (forall i :: 0 <= i < |u| ==> r[|c| + i] == Update(u[i].id, u[i].objType, u[i].properties))
      && (forall i :: 0 <= i < |d| ==> r[|c| + |u| + i] == Delete(d[i].id, d[i].objType))
  {
    CreateOperations(ops.create.GetOr([]), uuid)
    + UpdateOperations(ops.update.GetOr([]))
    + DeleteOperations(ops.remove.GetOr([]))
  }

  function Rank(op: Operation): nat {
    match op
    case Create(_, _) => 0
    case Update(_, _, _) => 1
    case Delete(_, _) => 2
  }

  /** The number of entries of a given kind. */
  function CountRank(ops: seq<Operation>, rank: nat): nat {
    if ops == [] then 0
    else CountRank(ops[..|ops| - 1], rank) + (if Rank(ops[|ops| - 1]) == rank then 1 else 0)
  }

  lemma {:induction false} CountRankAppend(a: seq<Operation>, b: seq<Operation>, rank: nat)
    ensures CountRank(a + b, rank) == CountRank(a, rank) + CountRank(b, rank)
  {
    if b == [] {
      assert a + b == a;
    } else {
      assert (a + b)[..|a + b| - 1] == a + b[..|b| - 1];
      CountRankAppend(a, b[..|b| - 1], rank);
    }
  }

  lemma {:induction false} CountRankUniform(ops: seq<Operation>, kind: nat, rank: nat)
    requires forall i :: 0 <= i < |ops| ==> Rank(ops[i]) == kind
    ensures CountRank(ops, rank) == if kind == rank then |ops| else 0
  {
    if ops != [] {
      CountRankUniform(ops[..|ops| - 1], kind, rank);
    }
  }

  /** Three lists, each of one kind, concatenated in the order of their kinds. */
  predicate UniformRanks(c: seq<Operation>, u: seq<Operation>, d: seq<Operation>) {
    && (forall i :: 0 <= i < |c| ==> Rank(c[i]) == 0)
    && (forall i :: 0 <= i < |u| ==> Rank(u[i]) == 1)
    && (forall i :: 0 <= i < |d| ==> Rank(d[i]) == 2)
  }

  lemma RankedConcat(c: seq<Operation>, u: seq<Operation>, d: seq<Operation>)
    requires UniformRanks(c, u, d)
    ensures var r := c + u + d; forall i, j :: 0 <= i < j < |r| ==> Rank(r[i]) <= Rank(r[j])
  {
    var r := c + u + d;
    forall i | 0 <= i < |r|
      ensures Rank(r[i]) == if i < |c| then 0 else if i < |c| + |u| then 1 else 2
    {
      if i < |c| {
        assert r[i] == c[i];
      } else if i < |c| + |u| {
        assert r[i] == u[i - |c|];
      } else {
        assert r[i] == d[i - |c| - |u|];
      }
    }
  }

  lemma RankedCounts(c: seq<Operation>, u: seq<Operation>, d: seq<Operation>, rank: nat)
    requires UniformRanks(c, u, d)
    ensures CountRank(c + u + d, rank)
            == (if rank == 0 then |c| else 0) + (if rank == 1 then |u| else 0) + (if rank == 2 then |d| else 0)
  {
    CountRankAppend(c, u, rank);
    CountRankAppend(c + u, d, rank);
    CountRankUniform(c, 0, rank);
    CountRankUniform(u, 1, rank);
    CountRankUniform(d, 2, rank);
  }

  /** The entries come grouped by kind, creations first and deletions last,
      with one entry of each kind per entity of the matching list. */
  lemma SavePayloadGroups(ops: SaveOperations, uuid: nat -> string)
    ensures var r := SavePayload(ops, uuid);
      && (forall i, j :: 0 <= i < j < |r| ==> Rank(r[i]) <= Rank(r[j]))
      && CountRank(r, 0) == |ops.create.GetOr([])|
      && CountRank(r, 1) == |ops.update.GetOr([])|
      && CountRank(r, 2) == |ops.remove.GetOr([])|
  {
    var c := CreateOperations(ops.create.GetOr([]), uuid);
    var u := UpdateOperations(ops.update.GetOr([]));
    var d := DeleteOperations(ops.remove.GetOr([]));
    assert UniformRanks(c, u, d);
    RankedConcat(c, u, d);
    RankedCounts(c, u, d, 0);
    RankedCounts(c, u, d, 1);
    RankedCounts(c, u, d, 2);
  }

  /** What a save does: the infrastructure it posts to, what it posts, and
      what it answers, which is always an empty list of features. */
  datatype SaveCall = SaveCall(infra: int, payload: seq<Operation>, returned: seq<Json>)

  function EditorSave(infra: int, ops: SaveOperations, uuid: nat -> string): (r: SaveCall)
    ensures r.infra == infra && r.payload == SavePayload(ops, uuid)
    ensures r.returned == []
  {
    SaveCall(infra, SavePayload(ops, uuid), [])
  }

  // ---------------------------------------------------------------------------
  // Splitting a `$ref` on '/'

  /** JavaScript's `s.split('/')`: the pieces between the slashes, empty ones
      included. */
  function Split(s: string): (r: seq<string>)
    ensures |r| >= 1
    ensures forall k :: 0 <= k < |r| ==> '/' !in r[k]
    decreases |s|
  {
    if s == [] then [""]
    else
      var rest := Split(s[1..]);
      if s[0] == '/' then [""] + rest
      else [[s[0]] + rest[0]] + rest[1..]
  }

  function Join(parts: seq<string>): string
    requires |parts| >= 1
  {
    if |parts| == 1 then parts[0] else parts[0] + "/" + Join(parts[1..])
  }

  lemma {:induction false} JoinPrepend(c: char, parts: seq<string>)
    requires |parts| >= 1
    ensures Join([[c] + parts[0]] + parts[1..]) == [c] + Join(parts)
  {
    var q := [[c] + parts[0]] + parts[1..];
    if |parts| > 1 {
      assert q[1..] == parts[1..];
    }
  }

  /** Splitting loses nothing: joining the pieces back gives the string. */
  lemma {:induction false} SplitJoin(s: string)
    ensures Join(Split(s)) == s
    decreases |s|
  {
    if s != [] {
      var rest := Split(s[1..]);
      SplitJoin(s[1..]);
      if s[0] == '/' {
        assert ([""] + rest)[1..] == rest;
        assert s == [s[0]] + s[1..];
      } else {
        JoinPrepend(s[0], rest);
        assert s == [s[0]] + s[1..];
      }
    }
  }

  /** And pieces without slashes are what their join splits into. */
  lemma {:induction false} JoinSplit(parts: seq<string>)
    requires |parts| >= 1
    requires forall k :: 0 <= k < |parts| ==> '/' !in parts[k]
    ensures Split(Join(parts)) == parts
    decreases |parts|, |parts[0]|
  {
    if parts[0] == [] {
      if |parts| > 1 {
        assert Join(parts) == "/" + Join(parts[1..]);
        JoinSplit(parts[1..]);
        assert ("/" + Join(parts[1..]))[1..] == Join(parts[1..]);
        assert parts == [""] + parts[1..];
      }
    } else {
      var c := parts[0][0];
      var shorter := [parts[0][1..]] + parts[1..];
      assert parts[0] == [c] + parts[0][1..];
      assert shorter[1..] == parts[1..];
      assert forall k :: 0 <= k < |shorter| ==> '/' !in shorter[k] by {
        forall k | 0 <= k < |shorter|
          ensures '/' !in shorter[k]
        {
          if k > 0 {
            assert shorter[k] == parts[k];
          }
        }
      }
      JoinPrepend(c, shorter);
      JoinSplit(shorter);
      assert [[c] + shorter[0]] + shorter[1..] == parts;
      assert Join(parts) == [c] + Join(shorter);
      assert Join(parts)[1..] == Join(shorter);
      assert c != '/' by {
        assert c == parts[0][0];
      }
    }
  }

  /** The usual `#/definitions/Name` reference splits into three pieces. */
  lemma DefinitionRefSplit(group: string, name: string)
    requires '/' !in group && '/' !in name
    ensures Split("#/" + group + "/" + name) == ["#", group, name]
  {
    var parts := ["#", group, name];
    assert Join(parts[2..]) == name;
    assert Join(parts[1..]) == group + "/" + name;
    assert Join(parts) == "#/" + group + "/" + name;
    JoinSplit(parts);
  }

  // ---------------------------------------------------------------------------
  // getEditorSchema

  /** A definition of the schema: its properties, its optional list of
      required properties and its other fields. */
  datatype SchemaDef = SchemaDef(
    properties: map<string, Json>,
    required: Option<seq<string>>,
    others: map<string, Json>)

  /** A top-level property of the schema: its `type` and, for an array, the
      `$ref` of its items. */
  datatype LayerProperty = LayerProperty(typ: string, itemsRef: Option<string>)

  /** The fetched schema: its properties in key order, and its groups of
      definitions (such as `definitions`) by name. */
  datatype SchemaResponse = SchemaResponse(
    properties: seq<(string, LayerProperty)>,
    groups: map<string, map<string, SchemaDef>>)

  datatype DefinitionRef = DefinitionRef(group: string, name: string)

  /** The source throws on a layer whose items carry no `$ref`, or whose
      `$ref` does not lead to a definition. */
  datatype SchemaError = MissingRef(layer: string) | UnresolvedRef(layer: string, ref: string)

  /** What a layer gets: its object type, its definition, and the group of
      definitions it was found in, under that group's name. */
  datatype LayerSchema = LayerSchema(
    objType: string,
    definition: SchemaDef,
    groupName: string,
    group: map<string, SchemaDef>)

  type Groups = map<string, map<string, SchemaDef>>

  /** The fields every layer's definition loses. */
  const OmittedFields: set<string> := {"id", "geo", "sch"}

  function WithoutOmitted(names: seq<string>): (r: seq<string>)
    ensures forall x :: x in r <==> x in names && x !in OmittedFields
  {
    if names == [] then []
    else
      var rest := WithoutOmitted(names[..|names| - 1]);
      if names[|names| - 1] in OmittedFields then rest else rest + [names[|names| - 1]]
  }

  lemma {:induction false} WithoutOmittedIdempotent(names: seq<string>)
    ensures WithoutOmitted(WithoutOmitted(names)) == WithoutOmitted(names)
  {
    if names != [] {
      var init := names[..|names| - 1];
      var rest := WithoutOmitted(init);
      WithoutOmittedIdempotent(init);
      if names[|names| - 1] !in OmittedFields {
        assert (rest + [names[|names| - 1]])[..|rest|] == rest;
      }
    }
  }

  /** A definition without the omitted fields, neither among its properties
      nor among its required ones; a missing list of required properties
      becomes an empty one. */
  function StripDefinition(d: SchemaDef): (r: SchemaDef)
    ensures r.properties.Keys == d.properties.Keys - OmittedFields
    ensures forall k :: k in r.properties ==> r.properties[k] == d.properties[k]
    ensures r.required.Some?
    ensures forall x :: x in r.required.value <==> x in d.required.GetOr([]) && x !in OmittedFields
    ensures r.others == d.others
  {
    SchemaDef(
      map k | k in d.properties && k !in OmittedFields :: d.properties[k],
      Some(WithoutOmitted(d.required.GetOr([]))),
      d.others)
  }

  /** Stripping twice is stripping once, so a definition shared by two
      layers ends up as if stripped once. */
  lemma StripIdempotent(d: SchemaDef)
    ensures StripDefinition(StripDefinition(d)) == StripDefinition(d)
  {
    WithoutOmittedIdempotent(d.required.GetOr([]));
  }

  /** Where a layer's `$ref` leads: its second and third pieces name a group
      and a definition in it. */
  function Resolve(groups: Groups, layer: string, p: LayerProperty): (r: Result<DefinitionRef, SchemaError>)
    ensures r.Ok? ==> r.value.group in groups && r.value.name in groups[r.value.group]
    ensures p.itemsRef.None? <==> r == Err(MissingRef(layer))
    ensures p.itemsRef.Some? ==>
              var parts := Split(p.itemsRef.value);
              && (r.Ok? <==> |parts| >= 3 && parts[1] in groups && parts[2] in groups[parts[1]])
              && (r.Ok? ==> r.value == DefinitionRef(parts[1], parts[2]))
              && (r.Err? ==> r == Err(UnresolvedRef(layer, p.itemsRef.value)))
  {
    if p.itemsRef.None? then Err(MissingRef(layer))
    else
      var parts := Split(p.itemsRef.value);
      if |parts| < 3 || parts[1] !in groups || parts[2] !in groups[parts[1]] then
        Err(UnresolvedRef(layer, p.itemsRef.value))
      else
        Ok(DefinitionRef(parts[1], parts[2]))
  }

  /** The properties of type array, in order: the layers. */
  function ArrayLayers(props: seq<(string, LayerProperty)>): (r: seq<(string, LayerProperty)>)
    ensures forall k :: 0 <= k < |r| ==> r[k].1.typ == "array"
    ensures forall x :: x in r <==> x in props && x.1.typ == "array"
    ensures |r| <= |props|
    ensures |props| == 1 ==> r == if props[0].1.typ == "array" then props else []
  {
    if props == [] then []
    else
      var rest := ArrayLayers(props[..|props| - 1]);
      if props[|props| - 1].1.typ == "array" then rest + [props[|props| - 1]] else rest
  }

  /** The filter keeps order: filtering a concatenation filters each part. */
  lemma {:induction false} ArrayLayersAppend(a: seq<(string, LayerProperty)>, b: seq<(string, LayerProperty)>)
    ensures ArrayLayers(a + b) == ArrayLayers(a) + ArrayLayers(b)
  {
    if b != [] {
      var n := |b| - 1;
      assert (a + b)[..|a + b| - 1] == a + b[..n];
      ArrayLayersAppend(a, b[..n]);
    } else {
      assert a + b == a;
    }
  }

  /** Resolves every layer in order, stopping at the first that fails. */
  function ResolveAll(groups: Groups, layers: seq<(string, LayerProperty)>): (r: Result<seq<(string, DefinitionRef)>, SchemaError>)
    ensures r.Ok? ==> |r.value| == |layers|
    ensures r.Ok? ==> forall k :: 0 <= k < |layers| ==>
              r.value[k].0 == layers[k].0 && Resolve(groups, layers[k].0, layers[k].1) == Ok(r.value[k].1)
  {
    if layers == [] then Ok([])
    else
      var last := layers[|layers| - 1];
      match ResolveAll(groups, layers[..|layers| - 1])
      case Err(e) => Err(e)
      case Ok(prev) =>
        match Resolve(groups, last.0, last.1)
        case Err(e) => Err(e)
        case Ok(ref) => Ok(prev + [(last.0, ref)])
  }

  /** Resolution fails exactly when some layer does not resolve, and then
      with the first such layer's error. */
  lemma {:induction false} ResolveAllFails(groups: Groups, layers: seq<(string, LayerProperty)>)
    ensures ResolveAll(groups, layers).Err? <==>
            exists k :: 0 <= k < |layers| && Resolve(groups, layers[k].0, layers[k].1).Err?
    ensures ResolveAll(groups, layers).Err? ==>
            exists k :: 0 <= k < |layers|
                        && Resolve(groups, layers[k].0, layers[k].1).Err?
                        && ResolveAll(groups, layers).error == Resolve(groups, layers[k].0, layers[k].1).error
                        && forall j :: 0 <= j < k ==> Resolve(groups, layers[j].0, layers[j].1).Ok?
  {
    if layers != [] {
      var init := layers[..|layers| - 1];
      ResolveAllFails(groups, init);
      forall k | 0 <= k < |init|
        ensures init[k] == layers[k]
      {
      }
    }
  }

  /** Every resolved reference leads to a definition. */
  predicate Resolved(groups: Groups, entries: seq<(string, DefinitionRef)>) {
    forall k :: 0 <= k < |entries| ==>
      entries[k].1.group in groups && entries[k].1.name in groups[entries[k].1.group]
  }

  /** The groups after each resolved definition has been stripped in place,
      in the layers' order. */
  function StripAll(groups: Groups, entries: seq<(string, DefinitionRef)>): (r: Groups)
    requires Resolved(groups, entries)
    ensures r.Keys == groups.Keys
    ensures forall g :: g in groups ==> r[g].Keys == groups[g].Keys
  {
    if entries == [] then groups
    else
      var prev := StripAll(groups, entries[..|entries| - 1]);
      var ref := entries[|entries| - 1].1;
      prev[ref.group := prev[ref.group][ref.name := StripDefinition(prev[ref.group][ref.name])]]
  }

  /** Some layer refers to the definition `name` of `group`. */
  predicate Refers(entries: seq<(string, DefinitionRef)>, group: string, name: string) {
    exists k :: 0 <= k < |entries| && entries[k].1 == DefinitionRef(group, name)
  }

  lemma RefersLast(entries: seq<(string, DefinitionRef)>, group: string, name: string)
    requires entries != []
    ensures Refers(entries, group, name)
            <==> Refers(entries[..|entries| - 1], group, name) || entries[|entries| - 1].1 == DefinitionRef(group, name)
  {
    var init := entries[..|entries| - 1];
    if Refers(init, group, name) {
      var k :| 0 <= k < |init| && init[k].1 == DefinitionRef(group, name);
      assert entries[k] == init[k];
    }
    if Refers(entries, group, name) {
      var k :| 0 <= k < |entries| && entries[k].1 == DefinitionRef(group, name);
      if k < |init| {
        assert init[k] == entries[k];
      }
    }
  }

  /** After the stripping, a definition some layer refers to is stripped
      (once), and every other definition is as fetched. */
  lemma {:induction false} StripAllValue(groups: Groups, entries: seq<(string, DefinitionRef)>, g: string, n: string)
    requires Resolved(groups, entries)
    requires g in groups && n in groups[g]
    ensures StripAll(groups, entries)[g][n]
            == if Refers(entries, g, n) then StripDefinition(groups[g][n]) else groups[g][n]
  {
    if entries != [] {
      var init := entries[..|entries| - 1];
      var ref := entries[|entries| - 1].1;
      assert Resolved(groups, init) by {
        forall k | 0 <= k < |init|
          ensures init[k].1.group in groups && init[k].1.name in groups[init[k].1.group]
        {
          assert init[k] == entries[k];
        }
      }
      var prev := StripAll(groups, init);
      StripAllValue(groups, init, g, n);
      RefersLast(entries, g, n);
      assert StripAll(groups, entries)
             == prev[ref.group := prev[ref.group][ref.name := StripDefinition(prev[ref.group][ref.name])]];
      if ref == DefinitionRef(g, n) {
        StripIdempotent(groups[g][n]);
        assert StripAll(groups, entries)[g][n] == StripDefinition(prev[g][n]);
      } else {
        assert StripAll(groups, entries)[g][n] == prev[g][n];
      }
    }
  }

  /** The result, keyed by layer (a later layer of the same name wins). Each
      layer's schema carries the groups as they are once every layer has been
      processed, since the source hands out the fetched group object that it
      goes on stripping. */
  function SchemaMap(entries: seq<(string, DefinitionRef)>, final: Groups): (r: map<string, LayerSchema>)
    requires Resolved(final, entries)
    ensures r.Keys == set k | 0 <= k < |entries| :: entries[k].0
  {
    if entries == [] then map[]
    else
      var prev := SchemaMap(entries[..|entries| - 1], final);
      var e := entries[|entries| - 1];
      var result := prev[e.0 := LayerSchema(e.1.name, final[e.1.group][e.1.name], e.1.group, final[e.1.group])];
      assert result.Keys == prev.Keys + {e.0};
      assert forall k :: 0 <= k < |entries| - 1 ==> entries[..|entries| - 1][k] == entries[k];
      result
  }

  /** `getEditorSchema`, on the fetched schema. */
  function EditorSchema(response: SchemaResponse): Result<map<string, LayerSchema>, SchemaError> {
    match ResolveAll(response.groups, ArrayLayers(response.properties))
    case Err(e) => Err(e)
    case Ok(entries) => Ok(SchemaMap(entries, StripAll(response.groups, entries)))
  }

  lemma {:induction false} SchemaMapEntry(entries: seq<(string, DefinitionRef)>, final: Groups, layer: string)
    requires Resolved(final, entries)
    requires layer in SchemaMap(entries, final)
    ensures exists k :: 0 <= k < |entries| && entries[k].0 == layer
              && SchemaMap(entries, final)[layer]
                 == LayerSchema(entries[k].1.name, final[entries[k].1.group][entries[k].1.name],
                                entries[k].1.group, final[entries[k].1.group])
  {
    var init := entries[..|entries| - 1];
    var e := entries[|entries| - 1];
    if e.0 != layer {
      assert Resolved(final, init) by {
        assert forall k :: 0 <= k < |init| ==> init[k] == entries[k];
      }
      SchemaMapEntry(init, final, layer);
      var k :| 0 <= k < |init| && init[k].0 == layer
              && SchemaMap(init, final)[layer]
                 == LayerSchema(init[k].1.name, final[init[k].1.group][init[k].1.name],
                                init[k].1.group, final[init[k].1.group]);
      assert init[k] == entries[k];
    }
  }

  /** Entries named after the layers, one for one, carry the layers' names. */
  lemma EntryNames(entries: seq<(string, DefinitionRef)>, layers: seq<(string, LayerProperty)>, l: string)
    requires |entries| == |layers|
    requires forall k :: 0 <= k < |layers| ==> entries[k].0 == layers[k].0
    ensures l in (set k | 0 <= k < |entries| :: entries[k].0) <==> exists p :: p in layers && p.0 == l
  {
    if l in (set k | 0 <= k < |entries| :: entries[k].0) {
      var k :| 0 <= k < |entries| && entries[k].0 == l;
      assert layers[k] in layers;
    }
    if exists p :: p in layers && p.0 == l {
      var p :| p in layers && p.0 == l;
      var k :| 0 <= k < |layers| && layers[k] == p;
      assert entries[k].0 == l;
    }
  }

  /** Every layer of the result is a property of type array, and every such
      property is a layer. */
  lemma EditorSchemaKeys(response: SchemaResponse)
    requires EditorSchema(response).Ok?
    ensures forall l :: l in EditorSchema(response).value
              <==> exists p :: p in response.properties && p.0 == l && p.1.typ == "array"
  {
    var layers := ArrayLayers(response.properties);
    var entries := ResolveAll(response.groups, layers).value;
    var m := EditorSchema(response).value;
    assert m.Keys == set k | 0 <= k < |entries| :: entries[k].0;
    forall l
      ensures l in m <==> exists p :: p in response.properties && p.0 == l && p.1.typ == "array"
    {
      EntryNames(entries, layers, l);
    }
  }

  /** Each layer's definition is the one its `$ref` leads to, without `id`,
      `geo` and `sch`, and the group the layer carries holds it. */
  lemma EditorSchemaDefinition(response: SchemaResponse, l: string)
    requires EditorSchema(response).Ok? && l in EditorSchema(response).value
    ensures var s := EditorSchema(response).value[l];
      && s.groupName in response.groups
      && s.objType in response.groups[s.groupName]
      && s.definition == StripDefinition(response.groups[s.groupName][s.objType])
      && s.objType in s.group && s.group[s.objType] == s.definition
      && s.definition.properties.Keys !! OmittedFields
      && exists p :: p in response.properties && p.0 == l && p.1.typ == "array"
                     && Resolve(response.groups, l, p.1) == Ok(DefinitionRef(s.groupName, s.objType))
  {
    var entries := ResolveAll(response.groups, ArrayLayers(response.properties)).value;
    var final := StripAll(response.groups, entries);
    SchemaMapEntry(entries, final, l);
    var k :| 0 <= k < |entries| && entries[k].0 == l
            && SchemaMap(entries, final)[l]
               == LayerSchema(entries[k].1.name, final[entries[k].1.group][entries[k].1.name],
                              entries[k].1.group, final[entries[k].1.group]);
    StripAllValue(response.groups, entries, entries[k].1.group, entries[k].1.name);
    var layers := ArrayLayers(response.properties);
    assert layers[k] in layers;
  }

  /** A layer whose items refer to `#/group/name` resolves to that
      definition when it exists. */
  lemma ResolveDefinitionRef(groups: Groups, layer: string, group: string, name: string)
    requires '/' !in group && '/' !in name
    requires group in groups && name in groups[group]
    ensures Resolve(groups, layer, LayerProperty("array", Some("#/" + group + "/" + name)))
            == Ok(DefinitionRef(group, name))
  {
    DefinitionRefSplit(group, name);
  }

  lemma ResolveAllStep(groups: Groups, layers: seq<(string, LayerProperty)>, i: nat, entries: seq<(string, DefinitionRef)>)
    requires i < |layers|
    requires ResolveAll(groups, layers[..i]) == Ok(entries)
    ensures var resolved := Resolve(groups, layers[i].0, layers[i].1);
      && (resolved.Err? ==> ResolveAll(groups, layers[..i + 1]) == Err(resolved.error))
      && (resolved.Ok? ==> ResolveAll(groups, layers[..i + 1]) == Ok(entries + [(layers[i].0, resolved.value)]))
  {
    assert layers[..i + 1][..i] == layers[..i];
  }

  lemma StripAllStep(groups: Groups, entries: seq<(string, DefinitionRef)>, e: (string, DefinitionRef))
    requires Resolved(groups, entries)
    requires e.1.group in groups && e.1.name in groups[e.1.group]
    ensures Resolved(groups, entries + [e])
    ensures var prev := StripAll(groups, entries);
      StripAll(groups, entries + [e])
      == prev[e.1.group := prev[e.1.group][e.1.name := StripDefinition(prev[e.1.group][e.1.name])]]
  {
    assert (entries + [e])[..|entries|] == entries;
  }

  /** `getEditorSchema` itself: the layers' definitions are stripped in a
      local copy of the groups as the layers are visited. */
  method GetEditorSchema(response: SchemaResponse) returns (r: Result<map<string, LayerSchema>, SchemaError>)
    ensures r == EditorSchema(response)
  {
    var layers := ArrayLayers(response.properties);
    var groups := response.groups;
    var entries: seq<(string, DefinitionRef)> := [];
    for i := 0 to |layers|
      invariant ResolveAll(response.groups, layers[..i]) == Ok(entries)
      invariant Resolved(response.groups, entries)
      invariant groups == StripAll(response.groups, entries)
    {
      ResolveAllStep(response.groups, layers, i, entries);
      var resolved := Resolve(response.groups, layers[i].0, layers[i].1);
      if resolved.Err? {
        ResolveAllPrefixError(response.groups, layers, i + 1);
        return Err(resolved.error);
      }
      var ref := resolved.value;
      StripAllStep(response.groups, entries, (layers[i].0, ref));
      groups := groups[ref.group := groups[ref.group][ref.name := StripDefinition(groups[ref.group][ref.name])]];
      entries := entries + [(layers[i].0, ref)];
    }
    assert layers[..|layers|] == layers;
    r := Ok(SchemaMap(entries, groups));
  }

  /** An error on a prefix of the layers is the error of them all. */
  lemma {:induction false} ResolveAllPrefixError(groups: Groups, layers: seq<(string, LayerProperty)>, i: nat)
    requires i <= |layers|
    requires ResolveAll(groups, layers[..i]).Err?
    ensures ResolveAll(groups, layers) == ResolveAll(groups, layers[..i])
    decreases |layers| - i
  {
    if i < |layers| {
      assert layers[..i + 1][..i] == layers[..i];
      ResolveAllPrefixError(groups, layers, i + 1);
    } else {
      assert layers[..i] == layers;
    }
  }

  // ---------------------------------------------------------------------------
  // getEditorData

  /** A feature as the layer endpoint returns it. */
  datatype Feature = Feature(geometry: Json, properties: map<string, Json>)

  /** The features of a layer as entities: the id taken from their
      properties, the layer's object type attached. */
  function LayerEntities(features: seq<Feature>, objType: string): (r: seq<EditorEntity>)
    ensures |r| == |features|
    ensures forall k :: 0 <= k < |r| ==>
              && r[k].objType == objType
              && r[k].geometry == features[k].geometry
              && r[k].properties == features[k].properties
              && (r[k].id.Some? <==> "id" in features[k].properties)
              && (r[k].id.Some? ==> r[k].id.value == features[k].properties["id"])
  {
    seq(|features|, k requires 0 <= k < |features| =>
      var f := features[k];
      EditorEntity(
        if "id" in f.properties then Some(f.properties["id"]) else None,
        objType, f.geometry, f.properties))
  }

  /** `getEditorData`: `responses[k]` is what the request for `layers[k]`
      returned, `objTypeForLayer` the object type the schema gives a layer. */
  function EditorData(layers: seq<string>, responses: seq<seq<Feature>>, objTypeForLayer: string -> string): (r: map<string, seq<EditorEntity>>)
    requires |responses| == |layers|
    ensures r.Keys == set k | 0 <= k < |layers| :: layers[k]
  {
    if layers == [] then map[]
    else
      var n := |layers| - 1;
      var prev := EditorData(layers[..n], responses[..n], objTypeForLayer);
      assert forall k :: 0 <= k < n ==> layers[..n][k] == layers[k];
      prev[layers[n] := LayerEntities(responses[n], objTypeForLayer(layers[n]))]
  }

  /** A layer requested several times keeps its last response. */
  lemma {:induction false} EditorDataLastWins(layers: seq<string>, responses: seq<seq<Feature>>, objTypeForLayer: string -> string, k: nat)
    requires |responses| == |layers|
    requires k < |layers|
    requires forall j :: k < j < |layers| ==> layers[j] != layers[k]
    ensures EditorData(layers, responses, objTypeForLayer)[layers[k]]
            == LayerEntities(responses[k], objTypeForLayer(layers[k]))
  {
    var n := |layers| - 1;
    if k < n {
      assert layers[..n][k] == layers[k];
      assert responses[..n][k] == responses[k];
      EditorDataLastWins(layers[..n], responses[..n], objTypeForLayer, k);
    }
  }
}
