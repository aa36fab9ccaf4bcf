/** The Asset Administration Shell tree (src/core/aas.rs): a shell holds
    submodels, a submodel holds elements, and collections nest elements
    recursively. The lookups are pure searches over this tree. */
module Aas {
  import opened Wrappers

  datatype ValueType = StringType | IntType | FloatType | BoolType | JsonType

  /** Property values; a JSON object is kept as its opaque text. */
  datatype Value = Str(text: string) | Int(i: int) | Flt(f: real) | Bool(b: bool) | Obj(json: string) | Null

  datatype OperationVariable = OperationVariable(name: string, valueType: ValueType, value: Value)

  datatype Element =
    | Property(idShort: string, valueType: ValueType, value: Value)
    | Operation(idShort: string, inputVariables: seq<OperationVariable>, outputVariables: seq<OperationVariable>)
    | Event(idShort: string)
    | Collection(idShort: string, children: seq<Element>)
    | ReferenceElement(idShort: string, reference: string)

  /** A SubmodelCollection is the Collection variant of an element. */
  type SubmodelCollection = e: Element | e.Collection? witness Collection("", [])

  datatype Submodel = Submodel(id: string, idShort: string, elements: seq<Element>)

  datatype Shell = Shell(id: string, idShort: string, description: Option<string>, submodels: seq<Submodel>)

  const SensorIdName: string := "SensorID"

  predicate IsCollectionNamed(e: Element, name: string)
  {
    e.Collection? && e.idShort == name
  }

  predicate IsReferenceNamed(e: Element, name: string)
  {
    e.ReferenceElement? && e.idShort == name
  }

  /** A top-level collection whose recursive search finds `target`. */
  predicate HasCollectionNamed(e: Element, target: string)
  {
    e.Collection? && FindCollectionByIdShort(e, target).Some?
  }

  predicate IsSensorIdProperty(e: Element)
  {
    e.Property? && e.idShort == SensorIdName
  }

  // ---------------------------------------------------------------------------
  // find_reference_value_in_collection

  /** The first submodel with the given id_short, then its first top-level
      Collection with the given id_short (no nested search). */
  function NamedCollection(shell: Shell, submodelIdShort: string, collectionIdShort: string): Option<SubmodelCollection>
  {
    match Find(shell.submodels, (s: Submodel) => s.idShort == submodelIdShort)
    case None => None
    case Some(sm) =>
      var j := FirstIndex(sm.elements, e => IsCollectionNamed(e, collectionIdShort));
      if j < |sm.elements| then Some(sm.elements[j]) else None
  }

  function FindReferenceValueInCollection(shell: Shell, submodelIdShort: string, collectionIdShort: string,
                                          referenceIdShort: string): Option<string>
  {
    match NamedCollection(shell, submodelIdShort, collectionIdShort)
    case None => None
    case Some(c) =>
      var k := FirstIndex(c.children, e => IsReferenceNamed(e, referenceIdShort));
      if k < |c.children| then Some(c.children[k].reference) else None
  }

  ghost predicate FirstSubmodelWithIdShort(sms: seq<Submodel>, name: string, i: int)
  {
    0 <= i < |sms| && sms[i].idShort == name && forall j :: 0 <= j < i ==> sms[j].idShort != name
  }

  ghost predicate FirstCollectionNamed(es: seq<Element>, name: string, j: int)
  {
    0 <= j < |es| && IsCollectionNamed(es[j], name) && forall k :: 0 <= k < j ==> !IsCollectionNamed(es[k], name)
  }

  ghost predicate FirstReferenceNamed(es: seq<Element>, name: string, k: int)
  {
    0 <= k < |es| && IsReferenceNamed(es[k], name) && forall m :: 0 <= m < k ==> !IsReferenceNamed(es[m], name)
  }

  /** The lookup yields `v` exactly when the first submodel with that id_short has a
      first top-level collection with that id_short, whose first direct
      ReferenceElement with that id_short holds `v`. Later duplicates and nested
      collections are never consulted. */
  lemma FindReferenceValueSpec(shell: Shell, sm: string, coll: string, ref: string, v: string)
    ensures FindReferenceValueInCollection(shell, sm, coll, ref) == Some(v) <==>
      exists i, j, k ::
        && FirstSubmodelWithIdShort(shell.submodels, sm, i)
        && FirstCollectionNamed(shell.submodels[i].elements, coll, j)
        && FirstReferenceNamed(shell.submodels[i].elements[j].children, ref, k)
        && shell.submodels[i].elements[j].children[k].reference == v
  {
    FindReferenceValueFound(shell, sm, coll, ref);
    forall i, j, k |
        && FirstSubmodelWithIdShort(shell.submodels, sm, i)
        && FirstCollectionNamed(shell.submodels[i].elements, coll, j)
        && FirstReferenceNamed(shell.submodels[i].elements[j].children, ref, k)
      ensures FindReferenceValueInCollection(shell, sm, coll, ref) == Some(shell.submodels[i].elements[j].children[k].reference)
    {
      FindReferenceValueAt(shell, sm, coll, ref, i, j, k);
    }
  }

  lemma FindReferenceValueFound(shell: Shell, sm: string, coll: string, ref: string)
    ensures FindReferenceValueInCollection(shell, sm, coll, ref).Some? ==>
      exists i, j, k ::
        && FirstSubmodelWithIdShort(shell.submodels, sm, i)
        && FirstCollectionNamed(shell.submodels[i].elements, coll, j)
        && FirstReferenceNamed(shell.submodels[i].elements[j].children, ref, k)
        && shell.submodels[i].elements[j].children[k].reference == FindReferenceValueInCollection(shell, sm, coll, ref).value
  {
    var sms := shell.submodels;
    var i := FirstIndex(sms, (s: Submodel) => s.idShort == sm);
    if i < |sms| {
      var es := sms[i].elements;
      var j := FirstIndex(es, e => IsCollectionNamed(e, coll));
      if j < |es| {
        var cs := es[j].children;
        var k := FirstIndex(cs, e => IsReferenceNamed(e, ref));
        if k < |cs| {
          assert FirstSubmodelWithIdShort(sms, sm, i) && FirstCollectionNamed(es, coll, j) && FirstReferenceNamed(cs, ref, k);
        }
      }
    }
  }

  lemma FindReferenceValueAt(shell: Shell, sm: string, coll: string, ref: string, i: int, j: int, k: int)
    requires FirstSubmodelWithIdShort(shell.submodels, sm, i)
    requires FirstCollectionNamed(shell.submodels[i].elements, coll, j)
    requires FirstReferenceNamed(shell.submodels[i].elements[j].children, ref, k)
    ensures FindReferenceValueInCollection(shell, sm, coll, ref) == Some(shell.submodels[i].elements[j].children[k].reference)
  {
    FirstIndexUnique(shell.submodels, (s: Submodel) => s.idShort == sm, i);
    FirstIndexUnique(shell.submodels[i].elements, e => IsCollectionNamed(e, coll), j);
    FirstIndexUnique(shell.submodels[i].elements[j].children, e => IsReferenceNamed(e, ref), k);
  }

  // ---------------------------------------------------------------------------
  // find_collection_by_id_short

  /** The collection itself if its id_short matches, otherwise the first match
      found by descending into Collection children in order. */
  function FindCollectionByIdShort(c: SubmodelCollection, target: string): Option<SubmodelCollection>
    decreases c, |c.children| + 1
  {
    if c.idShort == target then Some(c) else FindInChildren(c, target, 0)
  }

  /** The `for elem in &collection.value` loop, from child `i` on. */
  function FindInChildren(c: SubmodelCollection, target: string, i: nat): Option<SubmodelCollection>
    requires i <= |c.children|
    decreases c, |c.children| - i
  {
    if i == |c.children| then None
    else if c.children[i].Collection? && FindCollectionByIdShort(c.children[i], target).Some? then
      FindCollectionByIdShort(c.children[i], target)
    else FindInChildren(c, target, i + 1)
  }

  /** Reference definition: all collections of the tree in pre-order (a collection
      before its descendants, siblings in document order). */
  function Preorder(c: SubmodelCollection): seq<SubmodelCollection>
    decreases c, |c.children| + 1
  {
    [c] + PreorderFrom(c, 0)
  }

  function PreorderFrom(c: SubmodelCollection, i: nat): seq<SubmodelCollection>
    requires i <= |c.children|
    decreases c, |c.children| - i
  {
    if i == |c.children| then []
    else (if c.children[i].Collection? then Preorder(c.children[i]) else []) + PreorderFrom(c, i + 1)
  }

  function FirstNamed(s: seq<SubmodelCollection>, target: string): Option<SubmodelCollection>
  {
    Find(s, (d: SubmodelCollection) => d.idShort == target)
  }

  /** The recursive search returns the first collection with that id_short in pre-order. */
  lemma {:induction false} FindCollectionIsFirstInPreorder(c: SubmodelCollection, target: string)
    ensures FindCollectionByIdShort(c, target) == FirstNamed(Preorder(c), target)
    decreases c, |c.children| + 1
  {
    FindAppend([c], PreorderFrom(c, 0), (d: SubmodelCollection) => d.idShort == target);
    if c.idShort != target {
      FindInChildrenIsFirstInPreorder(c, target, 0);
    }
  }

  lemma {:induction false} FindInChildrenIsFirstInPreorder(c: SubmodelCollection, target: string, i: nat)
    requires i <= |c.children|
    ensures FindInChildren(c, target, i) == FirstNamed(PreorderFrom(c, i), target)
    decreases c, |c.children| - i
  {
    if i < |c.children| {
      var child, rest := c.children[i], PreorderFrom(c, i + 1);
      FindInChildrenIsFirstInPreorder(c, target, i + 1);
      if child.Collection? {
        var sub := Preorder(child);
        assert PreorderFrom(c, i) == sub + rest;
        FindCollectionIsFirstInPreorder(child, target);
        FindAppend(sub, rest, (d: SubmodelCollection) => d.idShort == target);
      } else {
        assert PreorderFrom(c, i) == rest;
      }
    }
  }

  /** Consequences: a hit carries the target id_short and lies in the tree; a miss
      means no collection of the tree has that id_short. */
  lemma FindCollectionByIdShortSpec(c: SubmodelCollection, target: string)
    ensures FindCollectionByIdShort(c, target).Some? ==>
      FindCollectionByIdShort(c, target).value.idShort == target && FindCollectionByIdShort(c, target).value in Preorder(c)
    ensures FindCollectionByIdShort(c, target).None? <==> forall d :: d in Preorder(c) ==> d.idShort != target
  {
    FindCollectionIsFirstInPreorder(c, target);
    var s := Preorder(c);
    var i := FirstIndex<SubmodelCollection>(s, (d: SubmodelCollection) => d.idShort == target);
    if i == |s| {
      forall d | d in s ensures d.idShort != target {
        var k :| 0 <= k < |s| && s[k] == d;
      }
    }
  }

  // ---------------------------------------------------------------------------
  // resolve_sensor_reference

  /** Second half of resolve_sensor_reference, once the reference is split at '#':
      the first submodel whose `id` matches, the first top-level collection whose
      recursive search finds `elementIdShort`, its first direct SensorID property,
      and that property's value if it is a string. */
  function SensorIdAt(shell: Shell, submodelId: string, elementIdShort: string): Option<string>
  {
    match Find(shell.submodels, (s: Submodel) => s.id == submodelId)
    case None => None
    case Some(sm) =>
      var j := FirstIndex(sm.elements, e => HasCollectionNamed(e, elementIdShort));
      if j == |sm.elements| then None
      else
        var c := FindCollectionByIdShort(sm.elements[j], elementIdShort).value;
        var k := FirstIndex(c.children, IsSensorIdProperty);
        if k == |c.children| then None
        else if c.children[k].value.Str? then Some(c.children[k].value.text)
        else None
  }

  function ResolveSensorReference(shell: Shell, fullRef: string): Option<string>
  {
    var parts := Split(fullRef, '#');
    if |parts| != 2 then None else SensorIdAt(shell, parts[0], parts[1])
  }

  /** A reference without exactly one '#' never resolves. */
  lemma ResolveNeedsOneHash(shell: Shell, fullRef: string)
    requires multiset(fullRef)['#'] != 1
    ensures ResolveSensorReference(shell, fullRef) == None
  {
    SplitCount(fullRef, '#');
  }

  /** With exactly one '#', the text before it names the submodel `id` and the text
      after it the collection's id_short. */
  lemma ResolveSplitsAtHash(shell: Shell, submodelId: string, elementIdShort: string)
    requires '#' !in submodelId && '#' !in elementIdShort
    ensures ResolveSensorReference(shell, submodelId + "#" + elementIdShort) == SensorIdAt(shell, submodelId, elementIdShort)
  {
    var parts := [submodelId, elementIdShort];
    assert Join(parts, '#') == submodelId + "#" + elementIdShort;
    SplitJoin(parts, '#');
  }

  ghost predicate FirstSubmodelWithId(sms: seq<Submodel>, id: string, i: int)
  {
    0 <= i < |sms| && sms[i].id == id && forall j :: 0 <= j < i ==> sms[j].id != id
  }

  ghost predicate FirstCollectionHolding(es: seq<Element>, target: string, j: int)
  {
    && 0 <= j < |es| && es[j].Collection? && FindCollectionByIdShort(es[j], target).Some?
    && forall k :: 0 <= k < j ==> !(es[k].Collection? && FindCollectionByIdShort(es[k], target).Some?)
  }

  ghost predicate FirstSensorIdProperty(es: seq<Element>, k: int)
  {
    0 <= k < |es| && IsSensorIdProperty(es[k]) && forall m :: 0 <= m < k ==> !IsSensorIdProperty(es[m])
  }

  /** SensorIdAt yields `x` exactly when the FIRST SensorID property of the found
      collection holds the string `x`; a non-string first SensorID gives None even
      if a later one is a string. */
  lemma SensorIdAtSpec(shell: Shell, submodelId: string, elementIdShort: string, x: string)
    ensures SensorIdAt(shell, submodelId, elementIdShort) == Some(x) <==>
      exists i, j, k ::
        && FirstSubmodelWithId(shell.submodels, submodelId, i)
        && FirstCollectionHolding(shell.submodels[i].elements, elementIdShort, j)
        && FirstSensorIdProperty(FindCollectionByIdShort(shell.submodels[i].elements[j], elementIdShort).value.children, k)
        && FindCollectionByIdShort(shell.submodels[i].elements[j], elementIdShort).value.children[k].value == Str(x)
  {
    if SensorIdAt(shell, submodelId, elementIdShort) == Some(x) {
      SensorIdAtFound(shell, submodelId, elementIdShort);
    }
    forall i, j, k |
        && FirstSubmodelWithId(shell.submodels, submodelId, i)
        && FirstCollectionHolding(shell.submodels[i].elements, elementIdShort, j)
        && FirstSensorIdProperty(FindCollectionByIdShort(shell.submodels[i].elements[j], elementIdShort).value.children, k)
        && FindCollectionByIdShort(shell.submodels[i].elements[j], elementIdShort).value.children[k].value == Str(x)
      ensures SensorIdAt(shell, submodelId, elementIdShort) == Some(x)
    {
      SensorIdAtPositions(shell, submodelId, elementIdShort, i, j, k);
    }
  }

  lemma SensorIdAtFound(shell: Shell, submodelId: string, elementIdShort: string)
    requires SensorIdAt(shell, submodelId, elementIdShort).Some?
    ensures exists i, j, k ::
        && FirstSubmodelWithId(shell.submodels, submodelId, i)
        && FirstCollectionHolding(shell.submodels[i].elements, elementIdShort, j)
        && FirstSensorIdProperty(FindCollectionByIdShort(shell.submodels[i].elements[j], elementIdShort).value.children, k)
        && FindCollectionByIdShort(shell.submodels[i].elements[j], elementIdShort).value.children[k].value
           == Str(SensorIdAt(shell, submodelId, elementIdShort).value)
  {
    var sms := shell.submodels;
    var i := FirstIndex(sms, (s: Submodel) => s.id == submodelId);
    var es := sms[i].elements;
    var j := FirstIndex(es, e => HasCollectionNamed(e, elementIdShort));
    var cs := FindCollectionByIdShort(es[j], elementIdShort).value.children;
    var k := FirstIndex(cs, IsSensorIdProperty);
    assert FirstSubmodelWithId(sms, submodelId, i) && FirstCollectionHolding(es, elementIdShort, j) && FirstSensorIdProperty(cs, k);
    assert cs[k].value == Str(cs[k].value.text);
  }

  lemma SensorIdAtPositions(shell: Shell, submodelId: string, elementIdShort: string, i: int, j: int, k: int)
    requires FirstSubmodelWithId(shell.submodels, submodelId, i)
    requires FirstCollectionHolding(shell.submodels[i].elements, elementIdShort, j)
    requires FirstSensorIdProperty(FindCollectionByIdShort(shell.submodels[i].elements[j], elementIdShort).value.children, k)
    ensures var v := FindCollectionByIdShort(shell.submodels[i].elements[j], elementIdShort).value.children[k].value;
      SensorIdAt(shell, submodelId, elementIdShort) == if v.Str? then Some(v.text) else None
  {
    FirstIndexUnique(shell.submodels, (s: Submodel) => s.id == submodelId, i);
    FirstIndexUnique(shell.submodels[i].elements, e => HasCollectionNamed(e, elementIdShort), j);
    FirstIndexUnique(FindCollectionByIdShort(shell.submodels[i].elements[j], elementIdShort).value.children, IsSensorIdProperty, k);
  }

  // ---------------------------------------------------------------------------
  // find_all_sensor_ids_in_datasources / gather_sensor_ids_in_collection

  /** Reference definition: every string-valued SensorID property at any depth,
      in depth-first document order. */
  function SensorIds(c: SubmodelCollection): seq<string>
    decreases c, |c.children| + 1
  {
    SensorIdsFrom(c, 0)
  }

  function SensorIdsFrom(c: SubmodelCollection, i: nat): seq<string>
    requires i <= |c.children|
    decreases c, |c.children| - i
  {
    if i == |c.children| then [] else ChildSensorIds(c, i) + SensorIdsFrom(c, i + 1)
  }

  /** What child `i` contributes: its whole subtree for a collection, its value for
      a string-valued SensorID property, nothing otherwise. */
  function ChildSensorIds(c: SubmodelCollection, i: nat): seq<string>
    requires i < |c.children|
    decreases c, 0
  {
    match c.children[i]
    case Collection(_, _) => SensorIds(c.children[i])
    case Property(name, _, value) => if name == SensorIdName && value.Str? then [value.text] else []
    case _ => []
  }

  method GatherSensorIdsInCollection(c: SubmodelCollection, result: seq<string>) returns (out: seq<string>)
    ensures out == result + SensorIds(c)
    decreases c
  {
    out := result;
    for i := 0 to |c.children|
      invariant out + SensorIdsFrom(c, i) == result + SensorIds(c)
    {
      var e := c.children[i];
      match e {
        case Collection(_, _) =>
          out := GatherSensorIdsInCollection(e, out);
        case Property(name, _, value) =>
          if name == SensorIdName {
            if value.Str? {
              out := out + [value.text];
            }
          }
        case _ =>
      }
    }
  }

  method FindAllSensorIdsInDatasources(shell: Shell, submodelIdShort: string, sensorsCollectionIdShort: string)
    returns (ids: seq<string>)
    ensures NamedCollection(shell, submodelIdShort, sensorsCollectionIdShort).None? ==> ids == []
    ensures NamedCollection(shell, submodelIdShort, sensorsCollectionIdShort).Some? ==>
      ids == SensorIds(NamedCollection(shell, submodelIdShort, sensorsCollectionIdShort).value)
  {
    match NamedCollection(shell, submodelIdShort, sensorsCollectionIdShort) {
      case None =>
        ids := [];
      case Some(sensors) =>
        ids := GatherSensorIdsInCollection(sensors, []);
    }
  }

  /** A collection directly holds a SensorID property whose value is the string `x`. */
  ghost predicate HoldsSensorId(d: SubmodelCollection, x: string)
  {
    exists k :: 0 <= k < |d.children| && IsSensorIdProperty(d.children[k]) && d.children[k].value == Str(x)
  }

  /** `x` is gathered exactly when some collection of the tree (the collection
      itself included) directly holds a string SensorID property `x`. */
  lemma {:induction false} SensorIdsMembership(c: SubmodelCollection, x: string)
    ensures x in SensorIds(c) <==> exists d :: d in Preorder(c) && HoldsSensorId(d, x)
    decreases c, |c.children| + 1
  {
    SensorIdsFromMembership(c, x, 0);
    if x in SensorIds(c) {
      if !HoldsSensorId(c, x) {
        var d :| d in PreorderFrom(c, 0) && HoldsSensorId(d, x);
        assert d in Preorder(c);
      } else {
        assert c in Preorder(c);
      }
    }
    if exists d :: d in Preorder(c) && HoldsSensorId(d, x) {
      var d :| d in Preorder(c) && HoldsSensorId(d, x);
      if d != c {
        assert d in PreorderFrom(c, 0);
      }
    }
  }

  lemma {:induction false} SensorIdsFromMembership(c: SubmodelCollection, x: string, i: nat)
    requires i <= |c.children|
    ensures x in SensorIdsFrom(c, i) <==>
      (exists k :: i <= k < |c.children| && IsSensorIdProperty(c.children[k]) && c.children[k].value == Str(x))
      || (exists d :: d in PreorderFrom(c, i) && HoldsSensorId(d, x))
    decreases c, |c.children| - i
  {
    if i < |c.children| {
      SensorIdsFromMembership(c, x, i + 1);
      ChildSensorIdsMembership(c, x, i);
      var e := c.children[i];
      var sub, rest := if e.Collection? then Preorder(e) else [], PreorderFrom(c, i + 1);
      assert PreorderFrom(c, i) == sub + rest;
      if exists k :: i <= k < |c.children| && IsSensorIdProperty(c.children[k]) && c.children[k].value == Str(x) {
        var k :| i <= k < |c.children| && IsSensorIdProperty(c.children[k]) && c.children[k].value == Str(x);
        assert k == i || i + 1 <= k;
      }
      if exists d :: d in PreorderFrom(c, i) && HoldsSensorId(d, x) {
        var d :| d in sub + rest && HoldsSensorId(d, x);
        assert d in sub || d in rest;
      }
    }
  }

  /** What child `i` contributes holds `x` exactly when the child is itself a SensorID
      property with value `x`, or a collection whose tree holds `x`. */
  lemma {:induction false} ChildSensorIdsMembership(c: SubmodelCollection, x: string, i: nat)
    requires i < |c.children|
    ensures x in ChildSensorIds(c, i) <==>
      (IsSensorIdProperty(c.children[i]) && c.children[i].value == Str(x))
      || (c.children[i].Collection? && exists d :: d in Preorder(c.children[i]) && HoldsSensorId(d, x))
    decreases c, 0
  {
    if c.children[i].Collection? {
      SensorIdsMembership(c.children[i], x);
    }
  }
}
