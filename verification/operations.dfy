/** The six CMDB operations, the `operations` dispatch table and the health check. */
module Operations {
  import opened Results
  import opened Values
  import opened Exceptions
  import opened Payload
  import opened Servicenow
  import opened RestCall
  import Text

  datatype Method = GET | POST | PUT | DELETE

  /** A piece of a request path: literal text, or a value from `params` formatted with `str()`. */
  datatype Segment = Lit(text: string) | Field(value: Value)

  /** The call an operation makes to `make_rest_call`: `data` is the JSON body, `query` the
      query-string parameters. */
  datatype Request = Request(
    verb: Method,
    path: seq<Segment>,
    data: Option<map<string, Value>>,
    query: Option<map<string, Value>>)

  /** A request together with what is left of the caller's `params` once the path keys are popped. */
  datatype Prepared = Prepared(request: Request, leftover: map<string, Value>)

  const InstancePath := "/cmdb/instance/"

  /** `params.pop(key)`: the value and the dict without it, or a KeyError. */
  function Pop(params: map<string, Value>, key: string): (r: Result<(Value, map<string, Value>), Failure>)
    ensures r.Ok? <==> key in params
    ensures r.Ok? ==> r.value == (params[key], params - {key})
    ensures r.Err? ==> r.error == KeyFailure(key)
  {
    if key in params then Ok((params[key], params - {key})) else Err(KeyFailure(key))
  }

  /** `params.get(key)`: a missing key reads as `None`. */
  function GetOrNone(params: map<string, Value>, key: string): Value {
    if key in params then params[key] else Null
  }

  /** `create_configuration_item`: POST the sanitised remaining params to the class's instance path. */
  function CreateConfigurationItem(params: map<string, Value>): (r: Result<Prepared, Failure>)
    ensures r.Ok? <==> "class_name" in params
    ensures r.Err? ==> r.error == KeyFailure("class_name")
    ensures r.Ok? ==> && r.value.leftover == params - {"class_name"}
                      && r.value.request.verb == POST
                      && r.value.request.path == [Lit(InstancePath), Field(params["class_name"])]
                      && r.value.request.data == Some(CheckPayload(r.value.leftover))
                      && r.value.request.query.None?
  {
    var popped :- Pop(params, "class_name");
    var rest := popped.1;
    Ok(Prepared(Request(POST, [Lit(InstancePath), Field(popped.0)], Some(CheckPayload(rest)), None), rest))
  }

  /** `get_configuration_items`: GET the instance path with the sanitised remaining params as query. */
  function GetConfigurationItems(params: map<string, Value>): (r: Result<Prepared, Failure>)
    ensures r.Ok? <==> "class_name" in params
    ensures r.Err? ==> r.error == KeyFailure("class_name")
    ensures r.Ok? ==> && r.value.leftover == params - {"class_name"}
                      && r.value.request.verb == GET
                      && r.value.request.path == [Lit(InstancePath), Field(params["class_name"])]
                      && r.value.request.data.None?
                      && r.value.request.query == Some(CheckPayload(r.value.leftover))
  {
    var popped :- Pop(params, "class_name");
    var rest := popped.1;
    Ok(Prepared(Request(GET, [Lit(InstancePath), Field(popped.0)], None, Some(CheckPayload(rest))), rest))
  }

  /** `get_configuration_item_details`: reads (does not pop) the path keys, so it never fails and
      leaves `params` alone; a missing key is formatted as `None`. No body, no query. */
  function GetConfigurationItemDetails(params: map<string, Value>): (r: Result<Prepared, Failure>)
    ensures r.Ok?
    ensures r.value.leftover == params
    ensures r.value.request.verb == GET
    ensures r.value.request.path ==
              [Lit(InstancePath), Field(GetOrNone(params, "class_name")), Lit("/"), Field(GetOrNone(params, "sys_id"))]
    ensures r.value.request.data.None? && r.value.request.query.None?
  {
    var path := [Lit(InstancePath), Field(GetOrNone(params, "class_name")), Lit("/"), Field(GetOrNone(params, "sys_id"))];
    Ok(Prepared(Request(GET, path, None, None), params))
  }

  /** `update_configuration_item`: PUT the sanitised remaining params to one item's path. */
  function UpdateConfigurationItem(params: map<string, Value>): (r: Result<Prepared, Failure>)
    ensures r.Ok? <==> "class_name" in params && "sys_id" in params
    ensures r.Err? ==> r.error == KeyFailure(if "class_name" !in params then "class_name" else "sys_id")
    ensures r.Ok? ==> && r.value.leftover == params - {"class_name", "sys_id"}
                      && r.value.request.verb == PUT
                      && r.value.request.path ==
                           [Lit(InstancePath), Field(params["class_name"]), Lit("/"), Field(params["sys_id"])]
                      && r.value.request.data == Some(CheckPayload(r.value.leftover))
                      && r.value.request.query.None?
  {
    var first :- Pop(params, "class_name");
    var second :- Pop(first.1, "sys_id");
    var rest := second.1;
    var path := [Lit(InstancePath), Field(first.0), Lit("/"), Field(second.0)];
    Ok(Prepared(Request(PUT, path, Some(CheckPayload(rest)), None), rest))
  }

  /** `add_relation_to_configuration_item`: POST the sanitised remaining params to an item's relation path. */
  function AddRelationToConfigurationItem(params: map<string, Value>): (r: Result<Prepared, Failure>)
    ensures r.Ok? <==> "class_name" in params && "sys_id" in params
    ensures r.Err? ==> r.error == KeyFailure(if "class_name" !in params then "class_name" else "sys_id")
    ensures r.Ok? ==> && r.value.leftover == params - {"class_name", "sys_id"}
                      && r.value.request.verb == POST
                      && r.value.request.path ==
                           [Lit(InstancePath), Field(params["class_name"]), Lit("/"), Field(params["sys_id"]),
                            Lit("/relation")]
                      && r.value.request.data == Some(CheckPayload(r.value.leftover))
                      && r.value.request.query.None?
  {
    var first :- Pop(params, "class_name");
    var second :- Pop(first.1, "sys_id");
    var rest := second.1;
    var path := [Lit(InstancePath), Field(first.0), Lit("/"), Field(second.0), Lit("/relation")];
    Ok(Prepared(Request(POST, path, Some(CheckPayload(rest)), None), rest))
  }

  /** `delete_relation_for_configuration_item`: DELETE one relation; no body, no query. */
  function DeleteRelationForConfigurationItem(params: map<string, Value>): (r: Result<Prepared, Failure>)
    ensures r.Ok? <==> "class_name" in params && "sys_id" in params && "rel_sys_id" in params
    ensures r.Err? ==> r.error == KeyFailure(if "class_name" !in params then "class_name"
                                             else if "sys_id" !in params then "sys_id" else "rel_sys_id")
    ensures r.Ok? ==> && r.value.leftover == params - {"class_name", "sys_id", "rel_sys_id"}
                      && r.value.request.verb == DELETE
                      && r.value.request.path ==
                           [Lit(InstancePath), Field(params["class_name"]), Lit("/"), Field(params["sys_id"]),
                            Lit("/relation/"), Field(params["rel_sys_id"])]
                      && r.value.request.data.None? && r.value.request.query.None?
  {
    var first :- Pop(params, "class_name");
    var second :- Pop(first.1, "sys_id");
    var third :- Pop(second.1, "rel_sys_id");
    var path := [Lit(InstancePath), Field(first.0), Lit("/"), Field(second.0), Lit("/relation/"), Field(third.0)];
    Ok(Prepared(Request(DELETE, path, None, None), third.1))
  }

  /** The operations the dispatch table offers. */
  datatype Operation = CreateItem | ListItems | ItemDetails | UpdateItem | AddRelation | DeleteRelation

  /** The key of each operation in the `operations` table. */
  function Name(op: Operation): string {
    match op
    case CreateItem => "create_configuration_item"
    case ListItems => "get_configuration_items"
    case ItemDetails => "get_configuration_item_details"
    case UpdateItem => "update_configuration_item"
    case AddRelation => "add_relation_to_configuration_item"
    case DeleteRelation => "delete_relation_for_configuration_item"
  }

  /** `operations[name]`: the operation filed under `name`, if any. */
  function Lookup(name: string): (r: Option<Operation>)
    ensures r.Some? ==> Name(r.value) == name
    ensures r.None? ==> forall op :: Name(op) != name
  {
    if name == "create_configuration_item" then Some(CreateItem)
    else if name == "get_configuration_items" then Some(ListItems)
    else if name == "get_configuration_item_details" then Some(ItemDetails)
    else if name == "update_configuration_item" then Some(UpdateItem)
    else if name == "add_relation_to_configuration_item" then Some(AddRelation)
    else if name == "delete_relation_for_configuration_item" then Some(DeleteRelation)
    else None
  }

  /** Every operation is filed under its own name, so no two share a key and the table has six entries;
      the health check is not in the table. */
  lemma LookupByName(op: Operation)
    ensures Lookup(Name(op)) == Some(op)
    ensures forall other :: Name(other) == Name(op) ==> other == op
    ensures Lookup("check_health").None? && Lookup("login").None?
  {
  }

  /** What each function of the table does with `params`. */
  function Prepare(op: Operation, params: map<string, Value>): Result<Prepared, Failure> {
    match op
    case CreateItem => CreateConfigurationItem(params)
    case ListItems => GetConfigurationItems(params)
    case ItemDetails => GetConfigurationItemDetails(params)
    case UpdateItem => UpdateConfigurationItem(params)
    case AddRelation => AddRelationToConfigurationItem(params)
    case DeleteRelation => DeleteRelationForConfigurationItem(params)
  }

  /** A path template: fixed text, or a slot filled from a `params` key. */
  datatype Piece = Fixed(text: string) | Slot(key: string)

  /** Where an operation sends the sanitised remainder of `params`. */
  datatype Carry = InBody | InQuery | Nowhere

  /** The verb, path template and payload placement of each operation, as a table. */
  function Verb(op: Operation): Method {
    match op
    case CreateItem => POST
    case ListItems => GET
    case ItemDetails => GET
    case UpdateItem => PUT
    case AddRelation => POST
    case DeleteRelation => DELETE
  }

  function Template(op: Operation): seq<Piece> {
    match op
    case CreateItem => [Fixed("/cmdb/instance/"), Slot("class_name")]
    case ListItems => [Fixed("/cmdb/instance/"), Slot("class_name")]
    case ItemDetails => [Fixed("/cmdb/instance/"), Slot("class_name"), Fixed("/"), Slot("sys_id")]
    case UpdateItem => [Fixed("/cmdb/instance/"), Slot("class_name"), Fixed("/"), Slot("sys_id")]
    case AddRelation =>
      [Fixed("/cmdb/instance/"), Slot("class_name"), Fixed("/"), Slot("sys_id"), Fixed("/relation")]
    case DeleteRelation =>
      [Fixed("/cmdb/instance/"), Slot("class_name"), Fixed("/"), Slot("sys_id"),
       Fixed("/relation/"), Slot("rel_sys_id")]
  }

  function Carries(op: Operation): Carry {
    match op
    case CreateItem => InBody
    case ListItems => InQuery
    case ItemDetails => Nowhere
    case UpdateItem => InBody
    case AddRelation => InBody
    case DeleteRelation => Nowhere
  }

  /** The keys the path of `op` is built from, in the order its function reads them. */
  function PathKeys(op: Operation): (keys: seq<string>)
    ensures forall i :: 0 <= i < |keys| ==> Slot(keys[i]) in Template(op)
    ensures forall i :: 0 <= i < |Template(op)| && Template(op)[i].Slot? ==> Template(op)[i].key in keys
  {
    match op
    case CreateItem => ["class_name"]
    case ListItems => ["class_name"]
    case ItemDetails => ["class_name", "sys_id"]
    case UpdateItem => ["class_name", "sys_id"]
    case AddRelation => ["class_name", "sys_id"]
    case DeleteRelation => ["class_name", "sys_id", "rel_sys_id"]
  }

  /** The template with every slot replaced by the value `params.get` gives for its key. */
  function Fill(t: seq<Piece>, params: map<string, Value>): (path: seq<Segment>)
    ensures |path| == |t|
  {
    seq(|t|, i requires 0 <= i < |t| =>
      match t[i]
      case Fixed(s) => Lit(s)
      case Slot(k) => Field(GetOrNone(params, k)))
  }

  /** The first of `keys` missing from `params`: the key whose `pop` raises. */
  function FirstMissing(keys: seq<string>, params: map<string, Value>): (r: Option<string>)
    ensures r.None? <==> forall i :: 0 <= i < |keys| ==> keys[i] in params
    ensures r.Some? ==> r.value !in params
    ensures r.Some? ==> exists i :: 0 <= i < |keys| && keys[i] == r.value && forall j :: 0 <= j < i ==> keys[j] in params
  {
    if keys == [] then None
    else if keys[0] !in params then Some(keys[0])
    else FirstMissing(keys[1..], params)
  }

  /** Only `get_configuration_item_details` reads its path keys without popping them. */
  predicate Pops(op: Operation) {
    op != ItemDetails
  }

  /** Each operation function raises a KeyError exactly when a path key it pops is missing, and the
      error names the first such key in the order the function pops them. */
  lemma {:induction false} PrepareRaisesFirstMissing(op: Operation, params: map<string, Value>)
    ensures var r := Prepare(op, params);
            && (r.Ok? <==> !Pops(op) || FirstMissing(PathKeys(op), params).None?)
            && (r.Err? ==> r.error == KeyFailure(FirstMissing(PathKeys(op), params).value))
  {
    var keys := PathKeys(op);
    match op
    case CreateItem =>
      assert FirstMissing(keys, params).None? <==> "class_name" in params;
    case ListItems =>
      assert FirstMissing(keys, params).None? <==> "class_name" in params;
    case ItemDetails =>
    case UpdateItem =>
      assert FirstMissing(keys, params).None? <==> "class_name" in params && "sys_id" in params;
    case AddRelation =>
      assert FirstMissing(keys, params).None? <==> "class_name" in params && "sys_id" in params;
    case DeleteRelation =>
      assert keys[1..] == ["sys_id", "rel_sys_id"];
      assert keys[1..][1..] == ["rel_sys_id"];
      assert keys[1..][1..][1..] == [];
      assert FirstMissing(keys[1..][1..], params) == if "rel_sys_id" !in params then Some("rel_sys_id") else None;
      assert FirstMissing(keys, params) ==
        if "class_name" !in params then Some("class_name")
        else if "sys_id" !in params then Some("sys_id")
        else if "rel_sys_id" !in params then Some("rel_sys_id")
        else None;
  }

  /** Each operation function agrees with the table: its verb, its path template filled from
      `params`, the popped keys gone from `params`, and the payload placement. */
  lemma {:induction false} PrepareFollowsTable(op: Operation, params: map<string, Value>)
    requires Prepare(op, params).Ok?
    ensures var p := Prepare(op, params).value;
            && p.request.verb == Verb(op)
            && p.request.path == Fill(Template(op), params)
            && p.leftover == (if Pops(op) then params - set k | k in PathKeys(op) else params)
            && (Carries(op) == InBody ==> p.request.data == Some(CheckPayload(p.leftover)) && p.request.query.None?)
            && (Carries(op) == InQuery ==> p.request.query == Some(CheckPayload(p.leftover)) && p.request.data.None?)
            && (Carries(op) == Nowhere ==> p.request.data.None? && p.request.query.None?)
  {
    FilledTemplate(op, params);
    match op
    case CreateItem =>
      assert (set k | k in PathKeys(op)) == {"class_name"};
    case ListItems =>
      assert (set k | k in PathKeys(op)) == {"class_name"};
    case ItemDetails =>
    case UpdateItem =>
      assert (set k | k in PathKeys(op)) == {"class_name", "sys_id"};
    case AddRelation =>
      assert (set k | k in PathKeys(op)) == {"class_name", "sys_id"};
    case DeleteRelation =>
      assert (set k | k in PathKeys(op)) == {"class_name", "sys_id", "rel_sys_id"};
  }

  /** Each template filled in, spelled out. */
  lemma FilledTemplate(op: Operation, params: map<string, Value>)
    ensures Fill(Template(op), params) == match op
      case CreateItem => [Lit(InstancePath), Field(GetOrNone(params, "class_name"))]
      case ListItems => [Lit(InstancePath), Field(GetOrNone(params, "class_name"))]
      case ItemDetails => [Lit(InstancePath), Field(GetOrNone(params, "class_name")), Lit("/"),
                           Field(GetOrNone(params, "sys_id"))]
      case UpdateItem => [Lit(InstancePath), Field(GetOrNone(params, "class_name")), Lit("/"),
                          Field(GetOrNone(params, "sys_id"))]
      case AddRelation => [Lit(InstancePath), Field(GetOrNone(params, "class_name")), Lit("/"),
                           Field(GetOrNone(params, "sys_id")), Lit("/relation")]
      case DeleteRelation => [Lit(InstancePath), Field(GetOrNone(params, "class_name")), Lit("/"),
                              Field(GetOrNone(params, "sys_id")), Lit("/relation/"),
                              Field(GetOrNone(params, "rel_sys_id"))]
  {
  }

  /** The path keys never travel in the payload, and the payload is sanitised. */
  lemma PathKeysNeverSent(op: Operation, params: map<string, Value>, k: string)
    requires Prepare(op, params).Ok?
    requires k in PathKeys(op)
    ensures var q := Prepare(op, params).value.request;
            && (q.data.Some? ==> k !in q.data.value && Sanitised(Dict(q.data.value)))
            && (q.query.Some? ==> k !in q.query.value && Sanitised(Dict(q.query.value)))
  {
    PrepareFollowsTable(op, params);
  }

  /** `str()` of one path segment. */
  function RenderSegment(s: Segment): Option<string> {
    match s
    case Lit(t) => Some(t)
    case Field(v) => PyStr(v)
  }

  /** The path string `format` builds, when every formatted value is a scalar. */
  function RenderPath(path: seq<Segment>): (r: Option<string>)
    ensures r.Some? <==> forall i :: 0 <= i < |path| ==> RenderSegment(path[i]).Some?
    ensures r.Some? && |path| > 0 ==> RenderSegment(path[0]).value <= r.value
  {
    if path == [] then Some("")
    else match (RenderSegment(path[0]), RenderPath(path[1..]))
      case (Some(head), Some(tail)) => Some(head + tail)
      case _ => None
  }

  /** Rendering a path piece by piece: the rendering of `a + b` is that of `a` followed by that
      of `b`, as `format` lays the pieces side by side, and fails when either part fails. */
  lemma {:induction false} RenderConcat(a: seq<Segment>, b: seq<Segment>)
    ensures RenderPath(a + b) == match (RenderPath(a), RenderPath(b))
                                 case (Some(x), Some(y)) => Some(x + y)
                                 case _ => None
    decreases |a|
  {
    if a == [] {
      assert a + b == b;
      if RenderPath(b).Some? {
        assert "" + RenderPath(b).value == RenderPath(b).value;
      }
    } else {
      var ab := a + b;
      assert ab[0] == a[0] && ab[1..] == a[1..] + b;
      RenderCons(ab);
      RenderCons(a);
      RenderConcat(a[1..], b);
      var h, x, y := RenderSegment(a[0]), RenderPath(a[1..]), RenderPath(b);
      if h.Some? && x.Some? && y.Some? {
        assert h.value + (x.value + y.value) == (h.value + x.value) + y.value;
      }
    }
  }

  /** A non-empty path renders as its first segment followed by the rest. */
  lemma RenderCons(p: seq<Segment>)
    requires |p| > 0
    ensures RenderPath(p) == match (RenderSegment(p[0]), RenderPath(p[1..]))
                             case (Some(h), Some(t)) => Some(h + t)
                             case _ => None
  {
  }

  /** A two-segment path renders as its two pieces side by side. */
  lemma RenderPair(a: Segment, b: Segment)
    ensures RenderPath([a, b]) == match (RenderSegment(a), RenderSegment(b))
                                  case (Some(x), Some(y)) => Some(x + y)
                                  case _ => None
  {
    assert [a, b][0] == a && [a, b][1..] == [b];
    assert [b][0] == b && [b][1..] == [];
    assert RenderPath([b]) == if RenderSegment(b).Some? then Some(RenderSegment(b).value + "") else None;
    if RenderSegment(b).Some? {
      assert RenderSegment(b).value + "" == RenderSegment(b).value;
    }
  }

  /** The full URL a request goes to: the client's base URL followed by the rendered path. */
  function RequestUrl(client: Client, q: Request): (r: Option<string>)
    ensures r.Some? <==> RenderPath(q.path).Some?
    ensures r.Some? ==> r.value == client.url + RenderPath(q.path).value
    ensures r.Some? ==> client.url <= r.value
  {
    match RenderPath(q.path)
    case None => None
    case Some(p) => Some(client.url + p)
  }

  /** Reading one item: GET `/cmdb/instance/<class>/<sys_id>` with no body and no query. */
  lemma DetailsPath(c: string, s: string)
    ensures var r := GetConfigurationItemDetails(map["class_name" := Str(c), "sys_id" := Str(s)]);
            && r.Ok? && r.value.request.verb == GET
            && RenderPath(r.value.request.path) == Some(InstancePath + c + "/" + s)
            && r.value.request.data.None? && r.value.request.query.None?
  {
    var path := [Lit(InstancePath), Field(Str(c)), Lit("/"), Field(Str(s))];
    assert path == [Lit(InstancePath), Field(Str(c))] + [Lit("/"), Field(Str(s))];
    RenderPair(Lit(InstancePath), Field(Str(c)));
    RenderPair(Lit("/"), Field(Str(s)));
    RenderConcat([Lit(InstancePath), Field(Str(c))], [Lit("/"), Field(Str(s))]);
    assert (InstancePath + c) + ("/" + s) == InstancePath + c + "/" + s;
  }

  /** Reading one item whose keys are missing asks for `/cmdb/instance/None/None`. */
  lemma DetailsWithoutKeys()
    ensures var r := GetConfigurationItemDetails(map[]);
            RenderPath(r.value.request.path) == Some(InstancePath + "None" + "/" + "None")
  {
    var path := [Lit(InstancePath), Field(Null), Lit("/"), Field(Null)];
    assert path == [Lit(InstancePath), Field(Null)] + [Lit("/"), Field(Null)];
    RenderPair(Lit(InstancePath), Field(Null));
    RenderPair(Lit("/"), Field(Null));
    RenderConcat([Lit(InstancePath), Field(Null)], [Lit("/"), Field(Null)]);
    assert (InstancePath + "None") + ("/" + "None") == InstancePath + "None" + "/" + "None";
  }

  /** Creating an item drops an empty field from the body and keeps the others. */
  lemma CreateDropsEmptyField(c: string, name: string)
    requires name != ""
    ensures var r := CreateConfigurationItem(
              map["class_name" := Str(c), "name" := Str(name), "short_description" := Str("")]);
            && r.Ok? && r.value.request.verb == POST
            && RenderPath(r.value.request.path) == Some(InstancePath + c)
            && r.value.request.data == Some(map["name" := Str(name)])
  {
    var params := map["class_name" := Str(c), "name" := Str(name), "short_description" := Str("")];
    var rest := params - {"class_name"};
    assert rest == map["name" := Str(name), "short_description" := Str("")];
    assert CheckPayload(rest) == map["name" := Str(name)];
    RenderPair(Lit(InstancePath), Field(Str(c)));
  }

  /** Deleting a relation: DELETE `/cmdb/instance/<class>/<sys_id>/relation/<rel>` with no body. */
  lemma DeletePath(c: string, s: string, rel: string)
    ensures var r := DeleteRelationForConfigurationItem(
              map["class_name" := Str(c), "sys_id" := Str(s), "rel_sys_id" := Str(rel)]);
            && r.Ok? && r.value.request.verb == DELETE
            && RenderPath(r.value.request.path) == Some(InstancePath + c + "/" + s + "/relation/" + rel)
            && r.value.request.data.None? && r.value.request.query.None?
            && r.value.leftover == map[]
  {
    RenderRelationPath(c, s, rel);
  }

  /** The rendering of a relation's path, one pair of segments at a time. */
  lemma RenderRelationPath(c: string, s: string, rel: string)
    ensures RenderPath([Lit(InstancePath), Field(Str(c)), Lit("/"), Field(Str(s)), Lit("/relation/"), Field(Str(rel))])
            == Some(InstancePath + c + "/" + s + "/relation/" + rel)
  {
    var p1, p2, p3 := [Lit(InstancePath), Field(Str(c))], [Lit("/"), Field(Str(s))], [Lit("/relation/"), Field(Str(rel))];
    var p12 := p1 + p2;
    assert p12 == [Lit(InstancePath), Field(Str(c)), Lit("/"), Field(Str(s))];
    assert [Lit(InstancePath), Field(Str(c)), Lit("/"), Field(Str(s)), Lit("/relation/"), Field(Str(rel))] == p12 + p3;
    RenderPair(Lit(InstancePath), Field(Str(c)));
    RenderPair(Lit("/"), Field(Str(s)));
    RenderPair(Lit("/relation/"), Field(Str(rel)));
    RenderConcat(p1, p2);
    var front := (InstancePath + c) + ("/" + s);
    assert RenderPath(p12) == Some(front);
    RenderConcat(p12, p3);
    assert front + ("/relation/" + rel) == InstancePath + c + "/" + s + "/relation/" + rel;
  }

  /** Where an operation sends its request: the verb and the full URL, once the client is built,
      the path keys are found and the path renders. */
  function Destination(op: Operation, config: Config, params: map<string, Value>): (r: Option<(Method, string)>)
    ensures r.Some? ==> config.serverUrl.Some? && Prepare(op, params).Ok?
    ensures r.Some? ==> r.value.0 == Verb(op)
    ensures config.serverUrl.Some? && Prepare(op, params).Ok? ==>
              (r.Some? <==> RenderPath(Prepare(op, params).value.request.path).Some?)
    ensures r.Some? ==> r.value.1 == NewClient(config).value.url + RenderPath(Prepare(op, params).value.request.path).value
  {
    match NewClient(config)
    case Err(_) => None
    case Ok(client) =>
      match Prepare(op, params)
      case Err(_) => None
      case Ok(p) =>
        PreparedVerb(op, params);
        match RequestUrl(client, p.request)
        case None => None
        case Some(url) => Some((p.request.verb, url))
  }

  /** The verb of a prepared request is the operation's verb in the table. */
  lemma PreparedVerb(op: Operation, params: map<string, Value>)
    requires Prepare(op, params).Ok?
    ensures Prepare(op, params).value.request.verb == Verb(op)
  {
  }

  /** One operation end to end, with the network's answer `x` as a parameter: build the client,
      build the request, then let `make_rest_call` judge the exchange. A failure before the request
      is sent reaches the host unchanged, whatever the network would have said. */
  function Run(op: Operation, config: Config, params: map<string, Value>, x: Exchange): (r: Reply)
    ensures config.serverUrl.None? ==> r == Error(NewClient(config).error)
    ensures config.serverUrl.Some? && Prepare(op, params).Err? ==> r == Error(Prepare(op, params).error)
    ensures r.Error? && r.failure.cls == KeyError ==>
              config.serverUrl.Some? && Pops(op) && FirstMissing(PathKeys(op), params).Some?
    ensures config.serverUrl.Some? && Prepare(op, params).Ok? ==> r == Classify(x)
  {
    PrepareRaisesFirstMissing(op, params);
    match NewClient(config)
    case Err(f) => Error(f)
    case Ok(_) =>
      match Prepare(op, params)
      case Err(f) => Error(f)
      case Ok(_) => Classify(x)
  }

  /** A request that has a destination is sent, and its outcome is judged by `make_rest_call`. */
  lemma RunAtDestination(op: Operation, config: Config, params: map<string, Value>, x: Exchange)
    requires Destination(op, config, params).Some?
    ensures Run(op, config, params, x) == Classify(x)
  {
  }

  /** A TLS failure on any operation that gets as far as sending raises the fixed SSL message. */
  lemma RunUnderTlsFailure(op: Operation, config: Config, params: map<string, Value>, e: Failure)
    requires config.serverUrl.Some? && Prepare(op, params).Ok?
    requires e.cls == SSLError
    ensures Run(op, config, params, Threw(e)) == Error(Failure(ConnectorError, SslMessage))
  {
  }

  /** A 404 is returned as data by every operation that sends its request, reads and deletes included. */
  lemma RunNotFound(op: Operation, config: Config, params: map<string, Value>, resp: Response)
    requires config.serverUrl.Some? && Prepare(op, params).Ok?
    requires resp.status == 404
    ensures Run(op, config, params, Answered(resp)) == Raw(resp)
  {
  }

  /** The request `login` makes: GET `/attachment` with `sysparm_limit=1` as the query. */
  function LoginRequest(): (q: Request)
    ensures q.verb == GET && RenderPath(q.path) == Some("/attachment")
    ensures q.data.None? && q.query == Some(map["sysparm_limit" := Int(1)])
  {
    var q := Request(GET, [Lit("/attachment")], None, Some(map["sysparm_limit" := Int(1)]));
    assert RenderPath(q.path[1..]) == Some("");
    assert "/attachment" + "" == "/attachment";
    q
  }

  /** The URL `login` requests: the client's base URL followed by `/attachment`. */
  function LoginUrl(config: Config): (r: Option<string>)
    ensures r.Some? <==> config.serverUrl.Some?
    ensures r.Some? ==> r.value == NewClient(config).value.url + "/attachment"
  {
    match NewClient(config)
    case Err(_) => None
    case Ok(client) => RequestUrl(client, LoginRequest())
  }

  const HealthMessage := "Invalid Credentials!"

  /** `_check_health`: true when the login response is `ok`; every other outcome, a transport
      failure or a bad configuration included, raises the same ConnectorError. */
  function CheckHealth(config: Config, x: Exchange): (r: Result<bool, Failure>)
    ensures r.Ok? ==> r.value
    ensures r.Ok? <==> config.serverUrl.Some? && x.Answered? && IsOk(x.response.status)
    ensures r.Err? ==> r.error == Failure(ConnectorError, HealthMessage)
    ensures r.Ok? ==> LoginUrl(config).Some?
  {
    match NewClient(config)
    case Err(_) => Err(Failure(ConnectorError, HealthMessage))
    case Ok(_) =>
      match x
      case Threw(_) => Err(Failure(ConnectorError, HealthMessage))
      case Answered(resp) => if IsOk(resp.status) then Ok(true) else Err(Failure(ConnectorError, HealthMessage))
  }

  /** The health check and `make_rest_call` disagree on 404: one fails, the other returns data. */
  lemma HealthCheckRejectsNotFound(config: Config, resp: Response)
    requires config.serverUrl.Some? && resp.status == 404
    ensures CheckHealth(config, Answered(resp)).Err?
    ensures Classify(Answered(resp)) == Raw(resp)
  {
    NotFoundIsData(resp);
  }

  /** A redirect passes the health check, and `make_rest_call` treats it as a success too:
      the response itself, or its decoded JSON when the headers mention `json`. */
  lemma RedirectsAreSuccesses(config: Config, resp: Response)
    requires config.serverUrl.Some? && 300 <= resp.status < 400
    ensures CheckHealth(config, Answered(resp)) == Ok(true)
    ensures resp.json.Parsed? || !Text.Contains(resp.headers, "json") ==>
              Classify(Answered(resp)).Raw? || Classify(Answered(resp)).Json?
  {
    SuccessStatuses(resp.status);
  }
}
