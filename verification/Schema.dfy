/**
 The tool-schema normaliser: every array-valued "type" becomes the one concrete type it
 names. An object is its members in iteration order; its keys are distinct, so what is
 done to every member named "type" is done to the one there is.
 */
module Schema {
  import opened Options

  datatype Json =
    | Null
    | Bool(flag: bool)
    | Number(digits: string)
    | Str(text: string)
    | Arr(items: seq<Json>)
    | Obj(members: seq<Member>)

  datatype Member = Member(key: string, value: Json)

  datatype Error = NonString | NotExactlyOne

  /** The place of a key, or the number of members if it is not there. */
  function IndexOf(members: seq<Member>, key: string): (i: nat)
    ensures i <= |members| && (i < |members| ==> members[i].key == key)
    ensures forall k | 0 <= k < i :: members[k].key != key
    decreases |members|
  {
    if members == [] || members[0].key == key then 0 else 1 + IndexOf(members[1..], key)
  }

  function Get(members: seq<Member>, key: string): Option<Json> {
    var i := IndexOf(members, key);
    if i < |members| then Some(members[i].value) else None
  }

  // ---- One union -----------------------------------------------------------

  predicate AllStrings(types: seq<Json>) { forall t | t in types :: t.Str? }

  /** The distinct types of a union other than null. */
  function Concrete(types: seq<Json>): set<string> {
    set t | t in types && t.Str? && t.text != "null" :: t.text
  }

  /** The union is worth exactly one type. */
  predicate Names(types: seq<Json>, name: string) {
    AllStrings(types) && name != "null" && Str(name) in types &&
    forall t | t in types :: t == Str(name) || t == Str("null")
  }

  lemma NamesIsConcrete(types: seq<Json>, name: string)
    ensures Names(types, name) <==> AllStrings(types) && Concrete(types) == {name}
  {
    if AllStrings(types) && Concrete(types) == {name} {
      assert name in Concrete(types);
      forall t | t in types ensures t == Str(name) || t == Str("null") {
        assert t.text != "null" ==> t.text in Concrete(types);
      }
    }
    if Names(types, name) {
      assert name in Concrete(types);
      assert forall n | n in Concrete(types) :: Str(n) in types;
    }
  }

  lemma OneConcrete(types: seq<Json>)
    requires |Concrete(types)| == 1
    ensures exists name :: Concrete(types) == {name}
  {
    var name :| name in Concrete(types);
    var others := Concrete(types) - {name};
    assert Concrete(types) == {name} + others && |others| == 0;
  }

  function FirstConcrete(types: seq<Json>): string
    decreases |types|
  {
    if types == [] then ""
    else if types[0].Str? && types[0].text != "null" then types[0].text
    else FirstConcrete(types[1..])
  }

  lemma {:induction false} FirstIsConcrete(types: seq<Json>)
    requires Concrete(types) != {}
    ensures FirstConcrete(types) in Concrete(types)
    decreases |types|
  {
    if !(types[0].Str? && types[0].text != "null") {
      var name :| name in Concrete(types);
      assert Str(name) in types[1..] && name in Concrete(types[1..]);
      FirstIsConcrete(types[1..]);
      assert forall n | n in Concrete(types[1..]) :: Str(n) in types;
    }
  }

  /** The collapsed union, or why it cannot be collapsed. */
  function Collapse(types: seq<Json>): Result<string, Error> {
    if !AllStrings(types) then Err(NonString)
    else if |Concrete(types)| != 1 then Err(NotExactlyOne)
    else Ok(FirstConcrete(types))
  }

  /** A union collapses exactly to the type it names, and exactly when it names one. */
  lemma CollapseIffNames(types: seq<Json>, name: string)
    ensures Collapse(types) == Ok(name) <==> Names(types, name)
    ensures Collapse(types).Ok? <==> exists n :: Names(types, n)
  {
    if Collapse(types).Ok? {
      OneConcrete(types);
      FirstIsConcrete(types);
      NamesIsConcrete(types, FirstConcrete(types));
    }
    if Names(types, name) {
      NamesIsConcrete(types, name);
      FirstIsConcrete(types);
    }
    forall n | Names(types, n) ensures Collapse(types).Ok? {
      NamesIsConcrete(types, n);
    }
  }

  // ---- The whole tree ------------------------------------------------------

  function Width(j: Json): nat { if j.Arr? then |j.items| else if j.Obj? then |j.members| else 0 }

  /** What the object's own "type" becomes, if it is a union. */
  function OwnType(members: seq<Member>): Result<Option<string>, Error> {
    match Get(members, "type")
    case Some(Arr(types)) =>
      (match Collapse(types)
       case Err(e) => Err(e)
       case Ok(name) => Ok(Some(name)))
    case _ => Ok(None)
  }

  function Normalize(j: Json): Result<Json, Error>
    decreases j, Width(j) + 1
  {
    match j
    case Arr(items) =>
      (match NormalItems(j, |items|)
       case Err(e) => Err(e)
       case Ok(done) => Ok(Arr(done)))
    case Obj(members) =>
      (match OwnType(members)
       case Err(e) => Err(e)
       case Ok(name) =>
         match NormalMembers(j, name, |members|)
         case Err(e) => Err(e)
         case Ok(done) => Ok(Obj(done)))
    case _ => Ok(j)
  }

  /** The first `n` items, normalised in turn. */
  function NormalItems(j: Json, n: nat): Result<seq<Json>, Error>
    requires j.Arr? && n <= |j.items|
    decreases j, n
  {
    if n == 0 then Ok([])
    else
      match NormalItems(j, n - 1)
      case Err(e) => Err(e)
      case Ok(before) =>
        match Normalize(j.items[n - 1])
        case Err(e) => Err(e)
        case Ok(item) => Ok(before + [item])
  }

  /** The first `n` members, normalised in turn once the object's union was replaced by `name`. */
  function NormalMembers(j: Json, name: Option<string>, n: nat): Result<seq<Member>, Error>
    requires j.Obj? && n <= |j.members|
    decreases j, n
  {
    if n == 0 then Ok([])
    else
      match NormalMembers(j, name, n - 1)
      case Err(e) => Err(e)
      case Ok(before) =>
        var m := j.members[n - 1];
        if name.Some? && n - 1 == IndexOf(j.members, "type") then Ok(before + [Member(m.key, Str(name.value))])
        else
          match Normalize(m.value)
          case Err(e) => Err(e)
          case Ok(value) => Ok(before + [Member(m.key, value)])
  }

  // ---- What is left behind -------------------------------------------------

  /**
   The tree as the call leaves it, whether it succeeds or not: rewritten up to the first
   failure in walking order, untouched after it.
   */
  function Rewritten(j: Json): Json
    decreases j, Width(j) + 1
  {
    match j
    case Arr(items) => Arr(RewrittenItems(j, |items|))
    case Obj(members) =>
      (match OwnType(members)
       case Err(_) => j
       case Ok(name) => Obj(RewrittenMembers(j, name, |members|)))
    case _ => j
  }

  function RewrittenItems(j: Json, n: nat): (left: seq<Json>)
    requires j.Arr? && n <= |j.items|
    ensures |left| == n
    decreases j, n
  {
    if n == 0 then [] else RewrittenItems(j, n - 1) + [RewrittenItem(j, n - 1)]
  }

  function RewrittenItem(j: Json, i: nat): Json
    requires j.Arr? && i < |j.items|
    decreases j, i
  {
    if NormalItems(j, i).Err? then j.items[i] else Rewritten(j.items[i])
  }

  function RewrittenMembers(j: Json, name: Option<string>, n: nat): (left: seq<Member>)
    requires j.Obj? && n <= |j.members|
    ensures |left| == n
    decreases j, n
  {
    if n == 0 then []
    else RewrittenMembers(j, name, n - 1) + [Member(j.members[n - 1].key, RewrittenValue(j, name, n - 1))]
  }

  /** The object's own union was replaced before its members were walked. */
  function RewrittenValue(j: Json, name: Option<string>, i: nat): Json
    requires j.Obj? && i < |j.members|
    decreases j, i
  {
    if name.Some? && i == IndexOf(j.members, "type") then Str(name.value)
    else if NormalMembers(j, name, i).Err? then j.members[i].value
    else Rewritten(j.members[i].value)
  }
}
