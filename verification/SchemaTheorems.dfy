/** What the schema normaliser accepts, what it leaves alone and what it removes. */
module SchemaTheorems {
  import opened Options
  import opened Schema

  // ---- Children ------------------------------------------------------------

  lemma {:induction false} ItemsAre(j: Json, n: nat)
    requires j.Arr? && n <= |j.items|
    ensures NormalItems(j, n).Ok? <==> forall i | 0 <= i < n :: Normalize(j.items[i]).Ok?
    ensures NormalItems(j, n).Ok? ==>
              var done := NormalItems(j, n).value;
              |done| == n && forall i | 0 <= i < n :: Normalize(j.items[i]) == Ok(done[i])
    decreases n
  {
    if n > 0 {
      ItemsAre(j, n - 1);
    }
  }

  /** The object's own union at this place was replaced by its name. */
  predicate Replaced(j: Json, name: Option<string>, i: nat)
    requires j.Obj? && i < |j.members|
  {
    name.Some? && i == IndexOf(j.members, "type")
  }

  lemma {:induction false} MembersAre(j: Json, name: Option<string>, n: nat)
    requires j.Obj? && n <= |j.members|
    ensures NormalMembers(j, name, n).Ok? <==>
            forall i | 0 <= i < n :: Replaced(j, name, i) || Normalize(j.members[i].value).Ok?
    ensures NormalMembers(j, name, n).Ok? ==>
              var done := NormalMembers(j, name, n).value;
              && |done| == n
              && forall i | 0 <= i < n ::
                   && done[i].key == j.members[i].key
                   && (if Replaced(j, name, i) then done[i].value == Str(name.value)
                       else Normalize(j.members[i].value) == Ok(done[i].value))
    decreases n
  {
    if n > 0 {
      MembersAre(j, name, n - 1);
    }
  }

  // ---- When it succeeds ----------------------------------------------------

  /** What the object's first member named "type" lists, if it is array-valued. */
  function Union(x: Json): Option<seq<Json>> {
    if x.Obj? then
      var at := IndexOf(x.members, "type");
      if at < |x.members| && x.members[at].value.Arr? then Some(x.members[at].value.items) else None
    else None
  }

  predicate IsOwnType(x: Json, i: nat)
    requires x.Obj? && i < |x.members|
  {
    Union(x).Some? && i == IndexOf(x.members, "type")
  }

  ghost predicate Fine(x: Json) { Union(x).Some? ==> exists name :: Names(Union(x).value, name) }

  /** `x` occurs in `j`, at any depth. */
  ghost predicate Within(x: Json, j: Json)
    decreases j
  {
    || x == j
    || (j.Arr? && exists i | 0 <= i < |j.items| :: Within(x, j.items[i]))
    || (j.Obj? && exists i | 0 <= i < |j.members| :: Within(x, j.members[i].value))
  }

  /** Every union that the walk reaches names one type; it does not walk into a union. */
  ghost predicate Good(j: Json)
    decreases j
  {
    && Fine(j)
    && (j.Arr? ==> forall i | 0 <= i < |j.items| :: Good(j.items[i]))
    && (j.Obj? ==> forall i | 0 <= i < |j.members| :: IsOwnType(j, i) || Good(j.members[i].value))
  }

  lemma {:induction false} OkIffGood(j: Json)
    ensures Normalize(j).Ok? <==> Good(j)
    decreases j
  {
    match j
    case Arr(items) =>
      ItemsAre(j, |items|);
      forall i | 0 <= i < |items| ensures Normalize(items[i]).Ok? <==> Good(items[i]) {
        OkIffGood(items[i]);
      }
    case Obj(members) =>
      OwnTypeOkIffFine(j);
      if OwnType(members).Ok? {
        var name := OwnType(members).value;
        MembersAre(j, name, |members|);
        forall i | 0 <= i < |members| ensures Replaced(j, name, i) <==> IsOwnType(j, i) {
        }
        forall i | 0 <= i < |members| ensures Normalize(members[i].value).Ok? <==> Good(members[i].value) {
          OkIffGood(members[i].value);
        }
      }
    case _ =>
  }

  lemma OwnTypeOkIffFine(j: Json)
    requires j.Obj?
    ensures OwnType(j.members).Ok? <==> Fine(j)
    ensures OwnType(j.members).Ok? ==> (OwnType(j.members).value.Some? <==> Union(j).Some?)
    ensures OwnType(j.members).Ok? && Union(j).Some? ==> Names(Union(j).value, OwnType(j.members).value.value)
  {
    if Union(j).Some? {
      var types := Union(j).value;
      CollapseIffNames(types, if Collapse(types).Ok? then Collapse(types).value else "");
    }
  }

  /** Inside a union that names a type there are only strings. */
  lemma WithinUnion(x: Json, types: seq<Json>, name: string)
    requires Names(types, name) && Within(x, Arr(types))
    ensures Union(x).None?
  {
    if x != Arr(types) {
      var i :| 0 <= i < |types| && Within(x, types[i]);
      assert types[i] in types;
    }
  }

  lemma {:induction false} GoodMeansFine(j: Json, x: Json)
    requires Good(j) && Within(x, j)
    ensures Fine(x)
    decreases j
  {
    if x != j && j.Arr? {
      var i :| 0 <= i < |j.items| && Within(x, j.items[i]);
      GoodMeansFine(j.items[i], x);
    } else if x != j && j.Obj? {
      var i :| 0 <= i < |j.members| && Within(x, j.members[i].value);
      if IsOwnType(j, i) {
        var name :| Names(Union(j).value, name);
        WithinUnion(x, Union(j).value, name);
      } else {
        GoodMeansFine(j.members[i].value, x);
      }
    }
  }

  lemma {:induction false} FineMeansGood(j: Json)
    requires forall x | Within(x, j) :: Fine(x)
    ensures Good(j)
    decreases j
  {
    assert Within(j, j);
    if j.Arr? {
      forall i | 0 <= i < |j.items| ensures Good(j.items[i]) {
        assert forall x | Within(x, j.items[i]) :: Within(x, j);
        FineMeansGood(j.items[i]);
      }
    } else if j.Obj? {
      forall i | 0 <= i < |j.members| ensures Good(j.members[i].value) {
        assert forall x | Within(x, j.members[i].value) :: Within(x, j);
        FineMeansGood(j.members[i].value);
      }
    }
  }

  /** The normaliser succeeds exactly when every union anywhere in the tree names exactly one type. */
  lemma SucceedsIff(j: Json)
    ensures Normalize(j).Ok? <==> forall x | Within(x, j) :: Fine(x)
  {
    OkIffGood(j);
    if Good(j) {
      forall x | Within(x, j) ensures Fine(x) {
        GoodMeansFine(j, x);
      }
    } else if forall x | Within(x, j) :: Fine(x) {
      FineMeansGood(j);
    }
  }

  // ---- What it leaves ------------------------------------------------------

  /** No union at any depth. */
  ghost predicate Plain(j: Json)
    decreases j
  {
    && Union(j).None?
    && (j.Arr? ==> forall i | 0 <= i < |j.items| :: Plain(j.items[i]))
    && (j.Obj? ==> forall i | 0 <= i < |j.members| :: Plain(j.members[i].value))
  }

  lemma {:induction false} PlainWithin(j: Json, x: Json)
    requires Plain(j) && Within(x, j)
    ensures Union(x).None?
    decreases j
  {
    if x != j && j.Arr? {
      var i :| 0 <= i < |j.items| && Within(x, j.items[i]);
      PlainWithin(j.items[i], x);
    } else if x != j && j.Obj? {
      var i :| 0 <= i < |j.members| && Within(x, j.members[i].value);
      PlainWithin(j.members[i].value, x);
    }
  }

  lemma {:induction false} ResultIsPlain(j: Json)
    requires Normalize(j).Ok?
    ensures Plain(Normalize(j).value)
    decreases j
  {
    var r := Normalize(j).value;
    match j
    case Arr(items) =>
      ItemsAre(j, |items|);
      forall i | 0 <= i < |items| ensures Plain(r.items[i]) {
        ResultIsPlain(items[i]);
      }
    case Obj(members) =>
      var name := OwnType(members).value;
      MembersAre(j, name, |members|);
      forall i | 0 <= i < |members| ensures Plain(r.members[i].value) {
        if !Replaced(j, name, i) {
          ResultIsPlain(members[i].value);
        }
      }
      NoUnionLeft(j, r);
    case _ =>
  }

  /** The root's own type is no array afterwards. */
  lemma NoUnionLeft(j: Json, r: Json)
    requires j.Obj? && Normalize(j) == Ok(r)
    ensures r.Obj? && Union(r).None?
  {
    var name := OwnType(j.members).value;
    MembersAre(j, name, |j.members|);
    var i := IndexOf(j.members, "type");
    if i < |j.members| && !Replaced(j, name, i) {
      OwnTypeOkIffFine(j);
    }
  }

  lemma {:induction false} PlainIsFixed(j: Json)
    requires Plain(j)
    ensures Normalize(j) == Ok(j)
    decreases j
  {
    match j
    case Arr(items) =>
      forall i | 0 <= i < |items| ensures Normalize(items[i]) == Ok(items[i]) {
        PlainIsFixed(items[i]);
      }
      ItemsAre(j, |items|);
      assert NormalItems(j, |items|).value == items;
    case Obj(members) =>
      forall i | 0 <= i < |members| ensures Normalize(members[i].value) == Ok(members[i].value) {
        PlainIsFixed(members[i].value);
      }
      OwnTypeOkIffFine(j);
      MembersAre(j, None, |members|);
      assert NormalMembers(j, None, |members|).value == members;
    case _ =>
  }

  /** The result has no array-valued "type" at any depth and is a fixed point of the normaliser. */
  lemma ResultIsNormal(j: Json)
    requires Normalize(j).Ok?
    ensures forall x | Within(x, Normalize(j).value) :: Union(x).None?
    ensures Normalize(Normalize(j).value) == Normalize(j)
  {
    ResultIsPlain(j);
    PlainIsFixed(Normalize(j).value);
    forall x | Within(x, Normalize(j).value) ensures Union(x).None? {
      PlainWithin(Normalize(j).value, x);
    }
  }

  // ---- Nothing else changes ------------------------------------------------

  datatype Hop = Index(i: nat) | Key(i: nat)

  /** What a path through items and members leads to. */
  datatype Visit = Reached(value: Json) | AtUnion(types: seq<Json>) | Nowhere

  function Follow(j: Json, path: seq<Hop>): Visit
    decreases |path|
  {
    if path == [] then Reached(j)
    else
      match path[0]
      case Index(i) => if j.Arr? && i < |j.items| then Follow(j.items[i], path[1..]) else Nowhere
      case Key(i) =>
        if !j.Obj? || i >= |j.members| then Nowhere
        else if IsOwnType(j, i) then (if |path| == 1 then AtUnion(Union(j).value) else Nowhere)
        else Follow(j.members[i].value, path[1..])
  }

  /** Alike but for their children: the same kind of value, the same scalar, the same keys in the same order. */
  predicate Alike(a: Json, b: Json) {
    match a
    case Arr(items) => b.Arr? && |b.items| == |items|
    case Obj(members) =>
      b.Obj? && |b.members| == |members| && forall i | 0 <= i < |members| :: members[i].key == b.members[i].key
    case _ => a == b
  }

  /**
   Along every path the result is as before; at a union it is the one type the union names,
   and where the original has nothing, so has the result.
   */
  lemma {:induction false} NothingElseChanges(j: Json, path: seq<Hop>)
    requires Normalize(j).Ok?
    ensures var r := Normalize(j).value;
            match Follow(j, path)
            case Reached(a) => (match Follow(r, path) case Reached(b) => Alike(a, b) case _ => false)
            case AtUnion(types) =>
              (match Follow(r, path) case Reached(Str(name)) => Names(types, name) case _ => false)
            case Nowhere => Follow(r, path) == Nowhere
    decreases |path|
  {
    var r := Normalize(j).value;
    match j
    case Arr(items) =>
      ItemsAre(j, |items|);
      if path != [] && path[0].Index? && path[0].i < |items| {
        NothingElseChanges(items[path[0].i], path[1..]);
      }
    case Obj(members) =>
      var name := OwnType(members).value;
      MembersAre(j, name, |members|);
      OwnTypeOkIffFine(j);
      NoUnionLeft(j, r);
      if path != [] && path[0].Key? && path[0].i < |members| {
        if IsOwnType(j, path[0].i) {
          assert r.members[path[0].i].value == Str(name.value);
          assert Follow(r, path) == Follow(Str(name.value), path[1..]);
        } else {
          NothingElseChanges(members[path[0].i].value, path[1..]);
        }
      }
    case _ =>
  }

  // ---- What is left behind -------------------------------------------------

  lemma {:induction false} RewrittenItemsAre(j: Json, n: nat)
    requires j.Arr? && n <= |j.items|
    ensures forall i | 0 <= i < n ::
              RewrittenItems(j, n)[i] == RewrittenItem(j, i)
    decreases n
  {
    if n > 0 {
      RewrittenItemsAre(j, n - 1);
    }
  }

  lemma {:induction false} RewrittenMembersAre(j: Json, name: Option<string>, n: nat)
    requires j.Obj? && n <= |j.members|
    ensures forall i | 0 <= i < n ::
              RewrittenMembers(j, name, n)[i] == Member(j.members[i].key, RewrittenValue(j, name, i))
    decreases n
  {
    if n > 0 {
      RewrittenMembersAre(j, name, n - 1);
    }
  }

  /** A call that succeeds leaves its result. */
  lemma {:induction false} SuccessLeavesResult(j: Json)
    requires Normalize(j).Ok?
    ensures Rewritten(j) == Normalize(j).value
    decreases j
  {
    match j
    case Arr(items) =>
      ItemsAre(j, |items|);
      RewrittenItemsAre(j, |items|);
      forall i | 0 <= i < |items| ensures RewrittenItems(j, |items|)[i] == NormalItems(j, |items|).value[i] {
        ItemsAre(j, i);
        SuccessLeavesResult(items[i]);
      }
      assert RewrittenItems(j, |items|) == NormalItems(j, |items|).value;
    case Obj(members) =>
      var name := OwnType(members).value;
      MembersAre(j, name, |members|);
      RewrittenMembersAre(j, name, |members|);
      forall i | 0 <= i < |members|
        ensures RewrittenMembers(j, name, |members|)[i] == NormalMembers(j, name, |members|).value[i]
      {
        MembersAre(j, name, i);
        if !Replaced(j, name, i) {
          SuccessLeavesResult(members[i].value);
        }
      }
      assert RewrittenMembers(j, name, |members|) == NormalMembers(j, name, |members|).value;
    case _ =>
  }

  /** `b` is `a` with nothing changed but unions that were replaced by the type they name. */
  ghost predicate LeftAt(a: Visit, b: Visit) {
    match a
    case Reached(x) => b.Reached? && Alike(x, b.value)
    case AtUnion(types) => b == a || (b.Reached? && b.value.Str? && Names(types, b.value.text))
    case Nowhere => b == Nowhere
  }

  /** After a failure too, along every path the tree is as before or has a union collapsed. */
  lemma {:induction false} LeftBehind(j: Json, path: seq<Hop>)
    ensures LeftAt(Follow(j, path), Follow(Rewritten(j), path))
    decreases |path|
  {
    match j
    case Arr(items) =>
      RewrittenItemsAre(j, |items|);
      if path != [] && path[0].Index? && path[0].i < |items| {
        LeftBehind(items[path[0].i], path[1..]);
      }
    case Obj(members) =>
      OwnTypeOkIffFine(j);
      if OwnType(members).Ok? {
        forall k | 0 <= k < |members| && path != []
          ensures LeftAt(Follow(members[k].value, path[1..]), Follow(Rewritten(members[k].value), path[1..]))
        {
          LeftBehind(members[k].value, path[1..]);
        }
        LeftBehindObject(j, OwnType(members).value, path);
      }
    case _ =>
  }

  lemma LeftBehindObject(j: Json, name: Option<string>, path: seq<Hop>)
    requires j.Obj? && OwnType(j.members) == Ok(name)
    requires forall k | 0 <= k < |j.members| && path != [] ::
               LeftAt(Follow(j.members[k].value, path[1..]), Follow(Rewritten(j.members[k].value), path[1..]))
    ensures LeftAt(Follow(j, path), Follow(Rewritten(j), path))
  {
    var r := Rewritten(j);
    RewrittenMembersAre(j, name, |j.members|);
    OwnTypeOkIffFine(j);
    RewrittenHasNoUnion(j, name);
    if path != [] && path[0].Key? && path[0].i < |j.members| {
      var k := path[0].i;
      if IsOwnType(j, k) {
        assert r.members[k].value == Str(name.value);
        assert Follow(r, path) == Follow(Str(name.value), path[1..]);
      } else {
        assert Follow(j, path) == Follow(j.members[k].value, path[1..]);
        assert Follow(r, path) == Follow(r.members[k].value, path[1..]);
      }
    }
  }

  lemma RewrittenHasNoUnion(j: Json, name: Option<string>)
    requires j.Obj? && OwnType(j.members) == Ok(name)
    ensures Union(Rewritten(j)).None?
  {
    var r := Rewritten(j);
    RewrittenMembersAre(j, name, |j.members|);
    OwnTypeOkIffFine(j);
    var i := IndexOf(j.members, "type");
    if i < |j.members| {
      RewrittenKeepsKind(j.members[i].value);
    }
  }

  lemma RewrittenKeepsKind(j: Json)
    ensures Rewritten(j).Arr? <==> j.Arr?
  {
  }
}
