/**
 `normalize_qwen_tool_schema` with its loops. The tree is a value handed back as far as it
 was rewritten, in case of failure too, as Rust's exclusive reference leaves it.
 */
module SchemaNormalizer {
  import opened Options
  import opened Schema
  import opened SchemaTheorems

  function Failure(r: Result<Json, Error>): Option<Error> { if r.Err? then Some(r.error) else None }

  method NormalizeSchema(j: Json) returns (left: Json, error: Option<Error>)
    ensures left == Rewritten(j) && error == Failure(Normalize(j))
    decreases j, 1
  {
    match j {
      case Arr(items) => left, error := NormalizeItems(j);
      case Obj(members) =>
        var own := CollapseOwnType(members);
        if own.Err? {
          return j, Some(own.error);
        }
        left, error := NormalizeMembers(j, own.value);
      case _ => left, error := j, None;
    }
  }

  method NormalizeItems(j: Json) returns (left: Json, error: Option<Error>)
    requires j.Arr?
    ensures left == Rewritten(j) && error == Failure(Normalize(j))
    decreases j, 0
  {
    var items := j.items;
    var i := 0;
    while i < |items|
      invariant i <= |items| == |j.items| && NormalItems(j, i).Ok?
      invariant items == ItemsAfter(j, i)
    {
      var item, failure := NormalizeSchema(items[i]);
      items := items[i := item];
      if failure.Some? {
        ItemFails(j, i, |items|);
        UntouchedItems(j, i + 1);
        return Arr(items), failure;
      }
      i := i + 1;
    }
    AllItems(j);
    left, error := Arr(items), None;
  }

  /** The array once its first `n` items were walked. */
  ghost function ItemsAfter(j: Json, n: nat): (items: seq<Json>)
    requires j.Arr? && n <= |j.items|
  {
    seq(|j.items|, k requires 0 <= k < |j.items| => if k < n then RewrittenItem(j, k) else j.items[k])
  }

  lemma AllItems(j: Json)
    requires j.Arr?
    ensures ItemsAfter(j, |j.items|) == RewrittenItems(j, |j.items|)
  {
    RewrittenItemsAre(j, |j.items|);
  }

  /** Behind the first failing item everything is untouched. */
  lemma UntouchedItems(j: Json, n: nat)
    requires j.Arr? && n <= |j.items| && forall k | n <= k <= |j.items| :: NormalItems(j, k).Err?
    ensures ItemsAfter(j, n) == RewrittenItems(j, |j.items|)
  {
    RewrittenItemsAre(j, |j.items|);
    forall k | n <= k < |j.items| ensures RewrittenItem(j, k) == j.items[k] {
      assert NormalItems(j, k).Err?;
    }
  }

  method NormalizeMembers(j: Json, name: Option<string>) returns (left: Json, error: Option<Error>)
    requires j.Obj? && OwnType(j.members) == Ok(name)
    ensures left == Rewritten(j) && error == Failure(Normalize(j))
    decreases j, 0
  {
    var members := j.members;
    var own := IndexOf(members, "type");
    if name.Some? && own < |members| {
      members := members[own := Member("type", Str(name.value))];
    }
    var i := 0;
    while i < |members|
      invariant i <= |members| == |j.members| && NormalMembers(j, name, i).Ok?
      invariant members == MembersAfter(j, name, i)
    {
      if !Replaced(j, name, i) {
        var value, failure := NormalizeSchema(members[i].value);
        members := members[i := Member(members[i].key, value)];
        if failure.Some? {
          FirstFailure(j, name, i);
          return Obj(members), failure;
        }
      }
      i := i + 1;
    }
    AllMembers(j, name);
    left, error := Obj(members), None;
  }

  /** The members after the first that fails are left as they are, and its error is reported. */
  lemma FirstFailure(j: Json, name: Option<string>, i: nat)
    requires j.Obj? && OwnType(j.members) == Ok(name) && i < |j.members| && NormalMembers(j, name, i).Ok?
    requires !Replaced(j, name, i) && Normalize(j.members[i].value).Err?
    ensures Rewritten(j) == Obj(MembersAfter(j, name, i + 1))
    ensures Normalize(j) == Err(Normalize(j.members[i].value).error)
  {
    MemberFails(j, name, i, |j.members|);
    UntouchedMembers(j, name, i + 1);
  }

  /** The object, its own union replaced, once its first `n` members were walked. */
  ghost function MembersAfter(j: Json, name: Option<string>, n: nat): (members: seq<Member>)
    requires j.Obj? && n <= |j.members|
  {
    seq(|j.members|, k requires 0 <= k < |j.members| =>
      if k < n || Replaced(j, name, k) then Member(j.members[k].key, RewrittenValue(j, name, k)) else j.members[k])
  }

  lemma AllMembers(j: Json, name: Option<string>)
    requires j.Obj?
    ensures MembersAfter(j, name, |j.members|) == RewrittenMembers(j, name, |j.members|)
  {
    RewrittenMembersAre(j, name, |j.members|);
  }

  lemma UntouchedMembers(j: Json, name: Option<string>, n: nat)
    requires j.Obj? && n <= |j.members| && forall k | n <= k <= |j.members| :: NormalMembers(j, name, k).Err?
    ensures MembersAfter(j, name, n) == RewrittenMembers(j, name, |j.members|)
  {
    RewrittenMembersAre(j, name, |j.members|);
    forall k | n <= k < |j.members| && !Replaced(j, name, k)
      ensures RewrittenValue(j, name, k) == j.members[k].value
    {
      assert NormalMembers(j, name, k).Err?;
    }
  }

  /** The union check: all strings, and the set of types other than null has one element. */
  method CollapseOwnType(members: seq<Member>) returns (own: Result<Option<string>, Error>)
    ensures own == OwnType(members)
  {
    var at := Get(members, "type");
    if at.None? || !at.value.Arr? {
      return Ok(None);
    }
    var types := at.value.items;
    var concrete: set<string> := {};
    var i := 0;
    while i < |types|
      invariant i <= |types| && AllStrings(types[..i]) && concrete == Concrete(types[..i])
    {
      assert types[..i + 1] == types[..i] + [types[i]];
      if !types[i].Str? {
        assert types[i] in types;
        return Err(NonString);
      }
      if types[i].text != "null" {
        concrete := concrete + {types[i].text};
      }
      i := i + 1;
    }
    assert types[..i] == types;
    if |concrete| != 1 {
      return Err(NotExactlyOne);
    }
    var name :| name in concrete;
    OneConcrete(types);
    FirstIsConcrete(types);
    own := Ok(Some(name));
  }

  /** Once an item fails, the whole array does, the same way. */
  lemma {:induction false} ItemFails(j: Json, i: nat, n: nat)
    requires j.Arr? && i < n <= |j.items| && NormalItems(j, i).Ok? && Normalize(j.items[i]).Err?
    ensures forall k | i < k <= n :: NormalItems(j, k) == Err(Normalize(j.items[i]).error)
    decreases n
  {
    if n - 1 > i {
      ItemFails(j, i, n - 1);
    }
  }

  lemma {:induction false} MemberFails(j: Json, name: Option<string>, i: nat, n: nat)
    requires j.Obj? && i < n <= |j.members| && NormalMembers(j, name, i).Ok?
    requires !Replaced(j, name, i) && Normalize(j.members[i].value).Err?
    ensures forall k | i < k <= n :: NormalMembers(j, name, k) == Err(Normalize(j.members[i].value).error)
    decreases n
  {
    if n - 1 > i {
      MemberFails(j, name, i, n - 1);
    }
  }
}
