/**
 * The accessors the `ElementType` and `CollectionType` metaclasses add to each resource class,
 * and what those accessors return (`get_element_from_element` and its three siblings).
 */
module Accessors {
  import opened Results
  import opened Xnat
  import opened Collections
  import Text

  /** An attribute of a resource class: one of the four generated getters, or the class's own. */
  datatype Member =
    | CollFromElem(rsc: string)   // get_collection_from_element
    | ElemFromElem(rsc: string)   // get_element_from_element
    | CollFromColl(rsc: string)   // get_collection_from_collection
    | ElemFromColl(rsc: string)   // get_element_from_collection
    | Own(name: string)

  /** The schema node of a class: its lower-cased name, plus `s` when the schema lists it as singular. */
  function RscName(className: string, singular: set<string>): (r: string)
    ensures Text.Lower(className) in singular ==> r == Text.Lower(className) + "s"
    ensures Text.Lower(className) !in singular ==> r == Text.Lower(className)
  {
    var l := Text.Lower(className);
    if l in singular then l + "s" else l
  }

  /** The collection getter and the element getter one child adds, the element one last. */
  function AddChild(dct: map<string, Member>, child: string, forElement: bool): map<string, Member>
  {
    var elem := Text.RStrip(child, 's');
    dct[child := if forElement then CollFromElem(child) else CollFromColl(child)]
       [elem := if forElement then ElemFromElem(elem) else ElemFromColl(elem)]
  }

  /** The class body after the loop over `children`. */
  function Augmented(dct: map<string, Member>, children: seq<string>, forElement: bool): map<string, Member>
  {
    if children == [] then dct
    else AddChild(Augmented(dct, children[..|children| - 1], forElement), children[|children| - 1], forElement)
  }

  /**
   * The metaclass `__new__`: the class body with the getters of each child of the class's node
   * added, or KeyError when the schema tree has no such node.
   */
  method AugmentClass(dct: map<string, Member>, tree: map<string, seq<string>>, className: string,
                      singular: set<string>, forElement: bool) returns (r: Result<map<string, Member>, Error>)
    ensures RscName(className, singular) !in tree ==> r == Err(KeyError(RscName(className, singular)))
    ensures RscName(className, singular) in tree ==> r == Ok(Augmented(dct, tree[RscName(className, singular)], forElement))
  {
    var rsc := RscName(className, singular);
    if rsc !in tree {
      return Err(KeyError(rsc));
    }
    var children := tree[rsc];
    var out := dct;
    var i := 0;
    while i < |children|
      invariant 0 <= i <= |children|
      invariant out == Augmented(dct, children[..i], forElement)
    {
      assert children[..i + 1][..i] == children[..i];
      out := AddChild(out, children[i], forElement);
      i := i + 1;
    }
    assert children[..i] == children;
    return Ok(out);
  }

  /** Whether the `j`-th child's names are set again by no later child. */
  predicate LastFor(children: seq<string>, j: nat, name: string)
    requires j < |children|
  {
    forall i :: j < i < |children| ==> children[i] != name && Text.RStrip(children[i], 's') != name
  }

  /** The generated table's names: the body's, every child, and every child without its trailing `s`. */
  lemma {:induction false} AugmentedKeys(dct: map<string, Member>, children: seq<string>, forElement: bool)
    ensures forall k :: k in Augmented(dct, children, forElement) <==>
              k in dct || exists j :: 0 <= j < |children| && (k == children[j] || k == Text.RStrip(children[j], 's'))
  {
    if children != [] {
      var n := |children|;
      var front := children[..n - 1];
      AugmentedKeys(dct, front, forElement);
      var m0 := Augmented(dct, front, forElement);
      var m := Augmented(dct, children, forElement);
      forall k
        ensures k in m <==> k in dct || exists j :: 0 <= j < n && (k == children[j] || k == Text.RStrip(children[j], 's'))
      {
        if k != children[n - 1] && k != Text.RStrip(children[n - 1], 's') {
          if k in m0 && k !in dct {
            var j :| 0 <= j < n - 1 && (k == front[j] || k == Text.RStrip(front[j], 's'));
            assert front[j] == children[j];
          }
          if exists j :: 0 <= j < n && (k == children[j] || k == Text.RStrip(children[j], 's')) {
            var j :| 0 <= j < n && (k == children[j] || k == Text.RStrip(children[j], 's'));
            assert j < n - 1 && front[j] == children[j];
          }
        }
      }
    }
  }

  /** A child no later child renames keeps its collection getter, unless it has no trailing `s`. */
  lemma {:induction false} AugmentedCollection(dct: map<string, Member>, children: seq<string>, forElement: bool, j: nat)
    requires j < |children| && Text.RStrip(children[j], 's') != children[j] && LastFor(children, j, children[j])
    ensures children[j] in Augmented(dct, children, forElement)
    ensures Augmented(dct, children, forElement)[children[j]]
            == (if forElement then CollFromElem(children[j]) else CollFromColl(children[j]))
  {
    var n := |children|;
    if j < n - 1 {
      var front := children[..n - 1];
      assert front[j] == children[j];
      assert LastFor(front, j, front[j]) by {
        forall i | j < i < n - 1 ensures front[i] != front[j] && Text.RStrip(front[i], 's') != front[j] {
          assert front[i] == children[i];
        }
      }
      AugmentedCollection(dct, front, forElement, j);
    }
  }

  /** A stripped child name no later child renames maps to its element getter. */
  lemma {:induction false} AugmentedElement(dct: map<string, Member>, children: seq<string>, forElement: bool, j: nat)
    requires j < |children| && LastFor(children, j, Text.RStrip(children[j], 's'))
    ensures var e := Text.RStrip(children[j], 's');
            e in Augmented(dct, children, forElement) &&
            Augmented(dct, children, forElement)[e] == (if forElement then ElemFromElem(e) else ElemFromColl(e))
  {
    var n := |children|;
    if j < n - 1 {
      var front := children[..n - 1];
      assert front[j] == children[j];
      assert LastFor(front, j, Text.RStrip(front[j], 's')) by {
        forall i | j < i < n - 1
          ensures front[i] != Text.RStrip(front[j], 's') && Text.RStrip(front[i], 's') != Text.RStrip(front[j], 's')
        {
          assert front[i] == children[i];
        }
      }
      AugmentedElement(dct, front, forElement, j);
    }
  }

  /** A name of the body that no child sets keeps the body's member. */
  lemma {:induction false} AugmentedKeepsOwn(dct: map<string, Member>, children: seq<string>, forElement: bool, k: string)
    requires k in dct
    requires forall j :: 0 <= j < |children| ==> k != children[j] && k != Text.RStrip(children[j], 's')
    ensures k in Augmented(dct, children, forElement) && Augmented(dct, children, forElement)[k] == dct[k]
  {
    if children != [] {
      var front := children[..|children| - 1];
      assert forall j :: 0 <= j < |front| ==> front[j] == children[j];
      AugmentedKeepsOwn(dct, front, forElement, k);
    }
  }

  // ---------------------------------------------------------------------------------------
  // What the getters return

  /** `element.<rsc>(ID)`: the element `ID` among the `<rsc>s` of the element at `uri`. */
  function ElementOfElement(ops: UriOps, uri: string, rsc: string, id: string): (r: Result<string, Error>)
    ensures r.Ok? <==> Text.Title(rsc) in ElementClasses
    ensures r.Ok? ==> r.value == ElementUri(ops, ops.join(uri, [rsc + "s", id]))
  {
    if Text.Title(rsc) !in ElementClasses then Err(KeyError(Text.Title(rsc)))
    else Ok(ElementUri(ops, ops.join(uri, [rsc + "s", id])))
  }

  /** `element.<rsc>(id_filter)`: the collection listed at `join_uri(uri, rsc)`. */
  function CollectionOfElement(ops: UriOps, uri: string, rsc: string, idFilter: string): (r: Result<CollVal, Error>)
    ensures r.Ok? <==> Text.Title(rsc) in CollectionClasses
    ensures r.Ok? ==> r.value.cbase == BStr(ops.join(uri, [rsc])) && r.value.ctype == Some(CUri)
                      && r.value.pattern == idFilter && r.value.nested.None? && r.value.idHeader == "ID"
  {
    if Text.Title(rsc) !in CollectionClasses then Err(KeyError(Text.Title(rsc)))
    else Ok(Make(BStr(ops.join(uri, [rsc])), idFilter, None, "ID", [], []).value)
  }

  /** `collection.<rsc>(id_filter)`: a collection nesting `rsc` under this one. */
  function CollectionOfCollection(cv: CollVal, rsc: string, idFilter: string): (r: Result<CollVal, Error>)
    ensures r.Ok? <==> Text.Title(rsc) in CollectionClasses
  {
    if Text.Title(rsc) !in CollectionClasses then Err(KeyError(Text.Title(rsc)))
    else Ok(Make(BColl(cv), idFilter, Some(rsc), cv.idHeader, cv.columns, []).value)
  }

  /** `collection.<rsc>(ID)`: the element `ID` under every element of the collection, as a list. */
  function ElementOfCollection(env: Env, cv: CollVal, rsc: string, id: string): Result<CollVal, Error>
  {
    if Text.Title(rsc) !in ElementClasses then Err(KeyError(Text.Title(rsc)))
    else if Text.Title(rsc) + "s" !in CollectionClasses then Err(KeyError(Text.Title(rsc) + "s"))
    else
      var p := Elements(env, cv);
      if p.failure.Some? then Err(p.failure.value)
      else
        var items := seq(|p.elems|, k requires 0 <= k < |p.elems| =>
                           IElem(ElementUri(env.ops, env.ops.join(p.elems[k], [rsc + "s", id]))));
        Ok(Make(BList(items), "*", None, "ID", [], []).value)
  }

  /**
   * `collection.<rsc>(ID)` yields, for each element of the collection in order, the element
   * `ID` among its `<rsc>s`, and nothing else.
   */
  lemma ElementOfCollectionYields(env: Env, cv: CollVal, rsc: string, id: string)
    requires ElementOfCollection(env, cv, rsc, id).Ok?
    ensures var parents := Elements(env, cv).elems;
            Elements(env, ElementOfCollection(env, cv, rsc, id).value)
            == Pass(seq(|parents|, k requires 0 <= k < |parents| =>
                          ElementUri(env.ops, env.ops.join(parents[k], [rsc + "s", id]))), None)
  {
    var c := ElementOfCollection(env, cv, rsc, id).value;
    var parents := Elements(env, cv).elems;
    if parents != [] {
      ElementListYieldsItself(env, c, c.idHeader, |parents|);
    }
  }

  /**
   * `collection.<rsc>()` yields, for each element of the collection in order, the `<rsc>`
   * listed under it, with the collection's own header and columns.
   */
  lemma CollectionOfCollectionYields(env: Env, cv: CollVal, rsc: string, idFilter: string)
    requires CollectionOfCollection(cv, rsc, idFilter).Ok?
    requires Elements(env, cv).failure.None?
    ensures var parents := Elements(env, cv).elems;
            Elements(env, CollectionOfCollection(cv, rsc, idFilter).value)
            == Flatten(seq(|parents|, k requires 0 <= k < |parents| =>
                             ChildPass(env, parents[k], rsc, idFilter, cv.idHeader, cv.columns)))
  {
    NestedCollectionFlattens(env, CollectionOfCollection(cv, rsc, idFilter).value);
  }
}
