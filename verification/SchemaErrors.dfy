/** Which error the schema normaliser reports: that of the first bad union in walking order. */
module SchemaErrors {
  import opened Options
  import opened Schema
  import opened SchemaTheorems

  /** Why a union does not collapse: it holds something other than a string, or names no or several types. */
  lemma CollapseFailsIff(types: seq<Json>)
    ensures Collapse(types) == Err(NonString) <==> exists i | 0 <= i < |types| :: !types[i].Str?
    ensures Collapse(types) == Err(NotExactlyOne) <==>
            (forall i | 0 <= i < |types| :: types[i].Str?) && forall name :: !Names(types, name)
  {
    assert AllStrings(types) <==> forall i | 0 <= i < |types| :: types[i].Str?;
    forall name ensures Names(types, name) ==> Collapse(types).Ok? {
      CollapseIffNames(types, name);
    }
    if Collapse(types).Ok? {
      CollapseIffNames(types, Collapse(types).value);
    }
  }

  // ---- The unions of a tree ------------------------------------------------

  /** The union that is an object's own type, if it has one. */
  function OwnUnion(members: seq<Member>): seq<seq<Json>> {
    var at := IndexOf(members, "type");
    if at < |members| && members[at].value.Arr? then [members[at].value.items] else []
  }

  /** The unions of a tree in the order in which they are met; what a union lists is not walked. */
  function Unions(j: Json): seq<seq<Json>>
    decreases j, Width(j) + 1
  {
    match j
    case Arr(items) => ItemUnions(j, |items|)
    case Obj(members) => OwnUnion(members) + MemberUnions(j, |members|)
    case _ => []
  }

  function ItemUnions(j: Json, n: nat): seq<seq<Json>>
    requires j.Arr? && n <= |j.items|
    decreases j, n
  {
    if n == 0 then [] else ItemUnions(j, n - 1) + Unions(j.items[n - 1])
  }

  /** The unions below an object, except that its own is no tree. */
  function MemberUnions(j: Json, n: nat): seq<seq<Json>>
    requires j.Obj? && n <= |j.members|
    decreases j, n
  {
    if n == 0 then []
    else
      var m := j.members[n - 1];
      MemberUnions(j, n - 1) +
      if OwnUnion(j.members) != [] && n - 1 == IndexOf(j.members, "type") then [] else Unions(m.value)
  }

  /** The error of the first union that does not collapse. */
  function FirstError(unions: seq<seq<Json>>): Option<Error> {
    if unions == [] then None
    else if Collapse(unions[0]).Err? then Some(Collapse(unions[0]).error)
    else FirstError(unions[1..])
  }

  lemma {:induction false} FirstOf(a: seq<seq<Json>>, b: seq<seq<Json>>)
    ensures FirstError(a + b) == if FirstError(a).Some? then FirstError(a) else FirstError(b)
    decreases |a|
  {
    if a == [] {
      assert a + b == b;
    } else {
      assert (a + b)[0] == a[0] && (a + b)[1..] == a[1..] + b;
      FirstOf(a[1..], b);
    }
  }

  /** What a result says about errors. */
  function Said<T>(r: Result<T, Error>): Option<Error> { if r.Err? then Some(r.error) else None }

  lemma OwnError(members: seq<Member>)
    ensures Said(OwnType(members)) == FirstError(OwnUnion(members))
    ensures OwnType(members).Ok? ==> (OwnType(members).value.Some? <==> OwnUnion(members) != [])
  {
  }

  lemma {:induction false} ItemErrors(j: Json, n: nat)
    requires j.Arr? && n <= |j.items|
    ensures Said(NormalItems(j, n)) == FirstError(ItemUnions(j, n))
    decreases j, n
  {
    if n > 0 {
      ItemErrors(j, n - 1);
      FirstErrorIsReported(j.items[n - 1]);
      FirstOf(ItemUnions(j, n - 1), Unions(j.items[n - 1]));
    }
  }

  lemma {:induction false} MemberErrors(j: Json, name: Option<string>, n: nat)
    requires j.Obj? && n <= |j.members| && OwnType(j.members) == Ok(name)
    ensures Said(NormalMembers(j, name, n)) == FirstError(MemberUnions(j, n))
    decreases j, n
  {
    if n > 0 {
      var m := j.members[n - 1];
      OwnError(j.members);
      MemberErrors(j, name, n - 1);
      FirstErrorIsReported(m.value);
      FirstOf(MemberUnions(j, n - 1), Unions(m.value));
      FirstOf(MemberUnions(j, n - 1), []);
    }
  }

  /**
   For every tree: the normaliser fails exactly if some union in it does not collapse, and
   reports the error of the first such union, an object's own before those below it.
   */
  lemma {:induction false} FirstErrorIsReported(j: Json)
    ensures Said(Normalize(j)) == FirstError(Unions(j))
    decreases j, Width(j) + 1
  {
    match j
    case Arr(items) => ItemErrors(j, |items|);
    case Obj(members) =>
      OwnError(members);
      FirstOf(OwnUnion(members), MemberUnions(j, |members|));
      if OwnType(members).Ok? {
        MemberErrors(j, OwnType(members).value, |members|);
      }
    case _ =>
  }

  // ---- What a failed call leaves -------------------------------------------

  /** The unions from the first that does not collapse on. */
  function FromFirstBad(unions: seq<seq<Json>>): seq<seq<Json>> {
    if unions == [] || Collapse(unions[0]).Err? then unions else FromFirstBad(unions[1..])
  }

  lemma {:induction false} FromFirst(a: seq<seq<Json>>, b: seq<seq<Json>>)
    ensures FromFirstBad(a + b) == if FirstError(a).Some? then FromFirstBad(a) + b else FromFirstBad(b)
    ensures FirstError(a).None? ==> FromFirstBad(a) == []
    decreases |a|
  {
    if a == [] {
      assert a + b == b;
    } else {
      assert (a + b)[0] == a[0] && (a + b)[1..] == a[1..] + b;
      FromFirst(a[1..], b);
    }
  }

  /** Walking on behind `a`: what `b` has lost is lost only if `a` was fine. */
  lemma WalksOn(a: seq<seq<Json>>, b: seq<seq<Json>>, leftOfB: seq<seq<Json>>)
    requires leftOfB == if FirstError(a).Some? then b else FromFirstBad(b)
    ensures FromFirstBad(a) + leftOfB == FromFirstBad(a + b)
  {
    FromFirst(a, b);
    assert [] + leftOfB == leftOfB;
  }

  lemma ItemLeft(j: Json, i: nat)
    requires j.Arr? && i < |j.items| && Unions(Rewritten(j.items[i])) == FromFirstBad(Unions(j.items[i]))
    ensures Unions(RewrittenItem(j, i)) ==
            if FirstError(ItemUnions(j, i)).Some? then Unions(j.items[i]) else FromFirstBad(Unions(j.items[i]))
  {
    ItemErrors(j, i);
  }

  lemma {:induction false} ItemsLeft(j: Json, n: nat, left: Json)
    requires j.Arr? && n <= |j.items| && left.Arr? && |left.items| >= n
    requires forall i | 0 <= i < n :: left.items[i] == RewrittenItem(j, i)
    ensures ItemUnions(left, n) == FromFirstBad(ItemUnions(j, n))
    decreases j, n
  {
    if n > 0 {
      ItemsLeft(j, n - 1, left);
      FailureStopsTheWalk(j.items[n - 1]);
      ItemLeft(j, n - 1);
      WalksOn(ItemUnions(j, n - 1), Unions(j.items[n - 1]), Unions(left.items[n - 1]));
    }
  }

  /** What an object's member adds to the walk. */
  function MemberUnion(j: Json, i: nat): seq<seq<Json>>
    requires j.Obj? && i < |j.members|
  {
    if OwnUnion(j.members) != [] && i == IndexOf(j.members, "type") then [] else Unions(j.members[i].value)
  }

  lemma MemberLeft(j: Json, name: Option<string>, i: nat, value: Json)
    requires j.Obj? && i < |j.members| && OwnType(j.members) == Ok(name) && value == RewrittenValue(j, name, i)
    requires Unions(Rewritten(j.members[i].value)) == FromFirstBad(Unions(j.members[i].value))
    ensures Unions(value) ==
            if FirstError(MemberUnions(j, i)).Some? then MemberUnion(j, i) else FromFirstBad(MemberUnion(j, i))
  {
    OwnError(j.members);
    MemberErrors(j, name, i);
    if name.Some? {
      assert Unions(Str(name.value)) == [];
    }
  }

  /** The walk over an object's members; its own union, if it had one, has been replaced by a string. */
  lemma {:induction false} MembersLeft(j: Json, name: Option<string>, n: nat, left: Json)
    requires j.Obj? && n <= |j.members| && OwnType(j.members) == Ok(name)
    requires left.Obj? && |left.members| == |j.members| && OwnUnion(left.members) == []
    requires forall i | 0 <= i < n :: left.members[i].value == RewrittenValue(j, name, i)
    ensures MemberUnions(left, n) == FromFirstBad(MemberUnions(j, n))
    decreases j, n
  {
    if n > 0 {
      MembersLeft(j, name, n - 1, left);
      FailureStopsTheWalk(j.members[n - 1].value);
      MemberLeft(j, name, n - 1, left.members[n - 1].value);
      WalksOn(MemberUnions(j, n - 1), MemberUnion(j, n - 1), Unions(left.members[n - 1].value));
    }
  }

  /**
   A call stops at the first union that does not collapse: of the unions in walking order the
   tree it leaves has lost exactly those before it. A call that succeeds leaves none.
   */
  lemma {:induction false} FailureStopsTheWalk(j: Json)
    ensures Unions(Rewritten(j)) == FromFirstBad(Unions(j))
    decreases j, Width(j) + 1
  {
    match j
    case Arr(items) =>
      RewrittenItemsAre(j, |items|);
      ItemsLeft(j, |items|, Rewritten(j));
    case Obj(members) =>
      OwnError(members);
      FromFirst(OwnUnion(members), MemberUnions(j, |members|));
      if OwnType(members).Ok? {
        var name := OwnType(members).value;
        RewrittenMembersAre(j, name, |members|);
        OwnIsReplaced(j, name);
        MembersLeft(j, name, |members|, Rewritten(j));
        assert [] + MemberUnions(Rewritten(j), |members|) == MemberUnions(Rewritten(j), |members|);
      }
    case _ =>
  }

  lemma OwnIsReplaced(j: Json, name: Option<string>)
    requires j.Obj? && OwnType(j.members) == Ok(name)
    ensures OwnUnion(RewrittenMembers(j, name, |j.members|)) == []
  {
    var left := RewrittenMembers(j, name, |j.members|);
    RewrittenMembersAre(j, name, |j.members|);
    OwnError(j.members);
    var at, before := IndexOf(left, "type"), IndexOf(j.members, "type");
    assert at == before by {
      assert forall k | 0 <= k < |left| :: left[k].key == j.members[k].key;
    }
    if at < |left| {
      RewrittenKeepsKind(j.members[at].value);
    }
  }
}
