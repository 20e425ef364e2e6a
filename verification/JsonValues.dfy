/** JSON.stringify on JavaScript values, some of which it drops or rewrites. */
module JsonValues {
  import opened Options
  import opened UriEncoding
  import opened JsonText
  import opened JsonRoundTrip

  /** `Absent` is undefined, a function or a symbol, `NotFinite` a NaN or an infinity; `Plain` is true, false, null or
      a finite number as it is printed. */
  datatype Value =
    | Absent
    | NotFinite
    | Plain(text: seq<unit>)
    | Str(content: seq<unit>)
    | List(items: seq<Value>)
    | Dict(properties: seq<Property>)

  datatype Property = Property(name: seq<unit>, value: Value)

  /** Numbers, true, false and null are printed as JSON literals. */
  predicate Printable(v: Value)
    decreases v
  {
    match v
    case Plain(text) => IsLiteral(text)
    case List(items) => forall i :: 0 <= i < |items| ==> Printable(items[i])
    case Dict(properties) => forall i :: 0 <= i < |properties| ==> Printable(properties[i].value)
    case _ => true
  }

  // ---- SerializeJSONProperty, section 25.5.2 of ECMA-262 ----

  function Join(texts: seq<seq<unit>>): seq<unit> {
    if |texts| == 0 then [] else if |texts| == 1 then texts[0] else texts[0] + ([COMMA] + Join(texts[1..]))
  }

  function Serialized(v: Value): Option<seq<unit>>
    decreases v
  {
    match v
    case Absent => None
    case NotFinite => Some(NULL)
    case Plain(text) => Some(text)
    case Str(content) => Some(Quote(content))
    case List(items) => Some([OPEN_ARRAY] + (Join(ItemTexts(items)) + [CLOSE_ARRAY]))
    case Dict(properties) => Some([OPEN_OBJECT] + (Join(PropertyTexts(properties)) + [CLOSE_OBJECT]))
  }

  function ItemTexts(items: seq<Value>): seq<seq<unit>>
    decreases items
  {
    if |items| == 0 then [] else [Serialized(items[0]).GetOr(NULL)] + ItemTexts(items[1..])
  }

  function PropertyTexts(properties: seq<Property>): seq<seq<unit>>
    decreases properties
  {
    if |properties| == 0 then []
    else
      var text, rest := Serialized(properties[0].value), PropertyTexts(properties[1..]);
      if text.Some? then [Quote(properties[0].name) + ([COLON] + text.value)] + rest else rest
  }

  // ---- What is left of a value ----

  /** The JSON value that is printed: absent properties are gone, absent elements and numbers that are not finite are
      null. */
  function Projected(v: Value): Option<Json>
    decreases v
  {
    match v
    case Absent => None
    case NotFinite => Some(Literal(NULL))
    case Plain(text) => Some(Literal(text))
    case Str(content) => Some(Text(content))
    case List(items) => Some(Array(ProjectedItems(items)))
    case Dict(properties) => Some(Object(ProjectedMembers(properties)))
  }

  function ProjectedItems(items: seq<Value>): seq<Json>
    decreases items
  {
    if |items| == 0 then [] else [Projected(items[0]).GetOr(Literal(NULL))] + ProjectedItems(items[1..])
  }

  function ProjectedMembers(properties: seq<Property>): seq<Member>
    decreases properties
  {
    if |properties| == 0 then []
    else
      var value, rest := Projected(properties[0].value), ProjectedMembers(properties[1..]);
      if value.Some? then [Member(properties[0].name, value.value)] + rest else rest
  }

  lemma {:induction false} PrintsProjection(v: Value)
    ensures Serialized(v) == if Projected(v).Some? then Some(Stringify(Projected(v).value)) else None
    decreases v
  {
    match v {
      case List(items) => ItemsPrintProjection(items);
      case Dict(properties) => PropertiesPrintProjection(properties);
      case _ =>
    }
  }

  lemma {:induction false} ItemsPrintProjection(items: seq<Value>)
    ensures Join(ItemTexts(items)) == StringifyItems(ProjectedItems(items))
    ensures |ItemTexts(items)| == |ProjectedItems(items)|
    decreases items
  {
    if |items| > 0 {
      PrintsProjection(items[0]);
      ItemsPrintProjection(items[1..]);
      assert ItemTexts(items)[1..] == ItemTexts(items[1..]);
      assert ProjectedItems(items)[1..] == ProjectedItems(items[1..]);
    }
  }

  lemma {:induction false} PropertiesPrintProjection(properties: seq<Property>)
    ensures Join(PropertyTexts(properties)) == StringifyMembers(ProjectedMembers(properties))
    ensures |PropertyTexts(properties)| == |ProjectedMembers(properties)|
    decreases properties
  {
    if |properties| > 0 {
      PrintsProjection(properties[0].value);
      PropertiesPrintProjection(properties[1..]);
      if Projected(properties[0].value).Some? {
        assert PropertyTexts(properties)[1..] == PropertyTexts(properties[1..]);
        assert ProjectedMembers(properties)[1..] == ProjectedMembers(properties[1..]);
      }
    }
  }

  lemma {:induction false} ProjectionIsWellFormed(v: Value)
    requires Printable(v) && Projected(v).Some?
    ensures WellFormed(Projected(v).value)
    decreases v
  {
    match v {
      case List(items) => ItemsAreWellFormed(items);
      case Dict(properties) => MembersAreWellFormed(properties);
      case _ =>
    }
  }

  lemma {:induction false} ItemsAreWellFormed(items: seq<Value>)
    requires forall i :: 0 <= i < |items| ==> Printable(items[i])
    ensures forall i :: 0 <= i < |ProjectedItems(items)| ==> WellFormed(ProjectedItems(items)[i])
    decreases items
  {
    if |items| > 0 {
      if Projected(items[0]).Some? { ProjectionIsWellFormed(items[0]); }
      ItemsAreWellFormed(items[1..]);
    }
  }

  lemma {:induction false} MembersAreWellFormed(properties: seq<Property>)
    requires forall i :: 0 <= i < |properties| ==> Printable(properties[i].value)
    ensures forall i :: 0 <= i < |ProjectedMembers(properties)| ==> WellFormed(ProjectedMembers(properties)[i].value)
    decreases properties
  {
    if |properties| > 0 {
      if Projected(properties[0].value).Some? { ProjectionIsWellFormed(properties[0].value); }
      MembersAreWellFormed(properties[1..]);
    }
  }

  /** JSON.stringify has no result exactly for an absent value; otherwise its text is read as the projection. */
  lemma StringifyReadsProjection(v: Value)
    requires Printable(v)
    ensures Serialized(v).None? <==> v.Absent?
    ensures Serialized(v).Some? ==>
              && Projected(v).Some? && Lex(Serialized(v).value).Some?
              && Parse(Serialized(v).value) == Projected(v)
  {
    PrintsProjection(v);
    if Projected(v).Some? {
      ProjectionIsWellFormed(v);
      StringifyReadsBack(Projected(v).value);
    }
  }

  // ---- When nothing is lost ----

  /** The JavaScript value that JSON.parse makes of a JSON value. */
  function Revived(j: Json): Value
    decreases j
  {
    match j
    case Literal(text) => Plain(text)
    case Text(content) => Str(content)
    case Array(items) => List(RevivedItems(items))
    case Object(members) => Dict(RevivedMembers(members))
  }

  function RevivedItems(items: seq<Json>): seq<Value>
    decreases items
  {
    if |items| == 0 then [] else [Revived(items[0])] + RevivedItems(items[1..])
  }

  function RevivedMembers(members: seq<Member>): seq<Property>
    decreases members
  {
    if |members| == 0 then []
    else [Property(members[0].name, Revived(members[0].value))] + RevivedMembers(members[1..])
  }

  /** Nothing absent and only finite numbers, at any depth. */
  predicate Whole(v: Value)
    decreases v
  {
    match v
    case Absent => false
    case NotFinite => false
    case List(items) => forall i :: 0 <= i < |items| ==> Whole(items[i])
    case Dict(properties) => forall i :: 0 <= i < |properties| ==> Whole(properties[i].value)
    case _ => true
  }

  lemma {:induction false} RevivedIsWhole(j: Json)
    ensures Whole(Revived(j))
    decreases j
  {
    match j {
      case Array(items) => RevivedItemsAreWhole(items);
      case Object(members) => RevivedMembersAreWhole(members);
      case _ =>
    }
  }

  lemma {:induction false} RevivedItemsAreWhole(items: seq<Json>)
    ensures forall i :: 0 <= i < |RevivedItems(items)| ==> Whole(RevivedItems(items)[i])
    decreases items
  {
    if |items| > 0 {
      RevivedIsWhole(items[0]);
      RevivedItemsAreWhole(items[1..]);
    }
  }

  lemma {:induction false} RevivedMembersAreWhole(members: seq<Member>)
    ensures forall i :: 0 <= i < |RevivedMembers(members)| ==> Whole(RevivedMembers(members)[i].value)
    decreases members
  {
    if |members| > 0 {
      RevivedIsWhole(members[0].value);
      RevivedMembersAreWhole(members[1..]);
    }
  }

  lemma {:induction false} WholeIsRevived(v: Value)
    requires Whole(v)
    ensures Projected(v).Some? && Revived(Projected(v).value) == v
    decreases v
  {
    match v {
      case List(items) => WholeItemsAreRevived(items);
      case Dict(properties) => WholePropertiesAreRevived(properties);
      case _ =>
    }
  }

  lemma {:induction false} WholeItemsAreRevived(items: seq<Value>)
    requires forall i :: 0 <= i < |items| ==> Whole(items[i])
    ensures RevivedItems(ProjectedItems(items)) == items
    decreases items
  {
    if |items| > 0 {
      WholeIsRevived(items[0]);
      WholeItemsAreRevived(items[1..]);
      assert ProjectedItems(items)[1..] == ProjectedItems(items[1..]);
      assert items == [items[0]] + items[1..];
    }
  }

  lemma {:induction false} WholePropertiesAreRevived(properties: seq<Property>)
    requires forall i :: 0 <= i < |properties| ==> Whole(properties[i].value)
    ensures RevivedMembers(ProjectedMembers(properties)) == properties
    decreases properties
  {
    if |properties| > 0 {
      WholeIsRevived(properties[0].value);
      WholePropertiesAreRevived(properties[1..]);
      assert ProjectedMembers(properties)[1..] == ProjectedMembers(properties[1..]);
      assert properties == [properties[0]] + properties[1..];
    }
  }

  /** A value comes back whole exactly when nothing in it is absent or not finite. */
  lemma ComesBackIff(v: Value)
    requires Printable(v)
    ensures Whole(v) <==>
              && Serialized(v).Some?
              && Parse(Serialized(v).value).Some?
              && Revived(Parse(Serialized(v).value).value) == v
  {
    hide Serialized, Projected, Parse, Revived, Whole;
    StringifyReadsProjection(v);
    if Whole(v) { WholeIsRevived(v); }
    if Projected(v).Some? { RevivedIsWhole(Projected(v).value); }
  }

  /** An object with an absent property comes back without it, a number that is not finite as null. */
  lemma LostInTransit(name: seq<unit>)
    ensures var v := Dict([Property(name, Absent)]);
            Serialized(v).Some? && Parse(Serialized(v).value) == Some(Object([])) && Revived(Object([])) != v
    ensures Parse(Serialized(NotFinite).value) == Some(Literal(NULL)) && Revived(Literal(NULL)) != NotFinite
  {
    hide Serialized, Parse;
    var v := Dict([Property(name, Absent)]);
    StringifyReadsProjection(v);
    StringifyReadsProjection(NotFinite);
    assert v.properties[1..] == [];
    assert ProjectedMembers(v.properties) == [];
  }
}
