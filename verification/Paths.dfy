/**
 From the paths of a document to the places of its operations, twice: the importer walks the resolved path items, the
 answers look for the operation objects behind a surface identifier. They mean the same operations when no method is
 spelled in two ways.
 */
module Paths {
  import opened Options
  import opened Sorting
  import opened OpenApi
  import A = Answers
  import R = References

  /** A path and its item, if that is an object. */
  datatype Path = Path(route: Text, item: Option<R.Item>)

  datatype Spec = Spec(paths: seq<Path>, components: R.Components, ops: map<nat, Operation>, schemes: seq<Scheme>)

  function UpperChar(c: int): int { if 0x61 <= c <= 0x7A then c - 0x20 else c }

  function Upper(s: Text): Text { seq(|s|, i requires 0 <= i < |s| => UpperChar(s[i])) }

  const SLASH: Text := [0x2F]

  // ----- the importer --------------------------------------------------------------------------

  /** The places of one path, one for every operation listed. */
  function RoutePlaces(route: Text, ops: seq<R.Entry>): seq<Place> {
    if ops == [] then []
    else (if ops[0].value.Operation? then [Place(route, Upper(ops[0].key), ops[0].value.id)] else []) + RoutePlaces(route, ops[1..])
  }

  predicate PathLe(p: Path, q: Path) { TextLe(p.route, q.route) }

  /** The loop of `product_model_from_openapi` over the paths; nothing stands for an import error. */
  function PlacesOf(components: R.Components, paths: seq<Path>): Option<seq<Place>> {
    if paths == [] then Some([])
    else
      var rest := PlacesOf(components, paths[1..]);
      var path := paths[0];
      if rest.None? then None
      else if T("x-") <= path.route then rest
      else if !(SLASH <= path.route) || path.item.None? then None
      else
        match R.ImporterOps(components, path.item.value)
        case Err(_) => None
        case Ok(ops) => Some(RoutePlaces(path.route, ops) + rest.value)
  }

  function ImportedPlaces(spec: Spec): Option<seq<Place>> { PlacesOf(spec.components, Sort(PathLe, spec.paths)) }

  // ----- the answers ---------------------------------------------------------------------------

  /** The operation behind a method of a path, as `_operation_targets` finds it. */
  function Behind(components: R.Components, path: Path, m: Text): Option<nat> {
    if !(SLASH <= path.route) || path.item.None? then None
    else
      match R.Effective(components, path.item.value, [])
      case Err(_) => None
      case Ok(effective) =>
        var found := R.Lookup(effective, m);
        if found.Some? && found.value.Operation? then Some(found.value.id) else None
  }

  /** The operation objects behind a surface identifier. */
  function AnswerTargets(c: Conv, spec: Spec, surface: Text): set<nat> {
    set i, m | 0 <= i < |spec.paths| && m in R.METHODS && Behind(spec.components, spec.paths[i], m).Some?
               && Behind(spec.components, spec.paths[i], m).value in spec.ops
               && SurfaceId(c, Place(spec.paths[i].route, Upper(m), Behind(spec.components, spec.paths[i], m).value),
                            spec.ops[Behind(spec.components, spec.paths[i], m).value].fixed) == surface
             :: Behind(spec.components, spec.paths[i], m).value
  }

  // ----- success -------------------------------------------------------------------------------

  /** The importer skips extensions; every other route has to start with a slash and hold a path item it can list. */
  predicate Importable(components: R.Components, path: Path) {
    || T("x-") <= path.route
    || (SLASH <= path.route && path.item.Some? && R.ImporterOps(components, path.item.value).Ok?)
  }

  lemma {:induction false} PlacesExactly(components: R.Components, paths: seq<Path>)
    ensures PlacesOf(components, paths).Some? <==> forall i :: 0 <= i < |paths| ==> Importable(components, paths[i])
  {
    hide R.ImporterOps, RoutePlaces, T;
    if paths != [] {
      PlacesExactly(components, paths[1..]);
      forall i | 0 < i < |paths| ensures paths[i] == paths[1..][i - 1] {}
    }
  }

  /** A document is imported exactly when all its paths can be. */
  lemma ImportedExactly(spec: Spec)
    ensures ImportedPlaces(spec).Some? <==> forall i :: 0 <= i < |spec.paths| ==> Importable(spec.components, spec.paths[i])
  {
    hide Importable, PlacesOf, Sort;
    var sorted := Sort(PathLe, spec.paths);
    PlacesExactly(spec.components, sorted);
    if forall i :: 0 <= i < |spec.paths| ==> Importable(spec.components, spec.paths[i]) {
      forall i | 0 <= i < |sorted| ensures Importable(spec.components, sorted[i]) {
        SameElements(sorted, spec.paths, sorted[i]);
        var j :| 0 <= j < |spec.paths| && spec.paths[j] == sorted[i];
      }
    }
    if forall i :: 0 <= i < |sorted| ==> Importable(spec.components, sorted[i]) {
      forall i | 0 <= i < |spec.paths| ensures Importable(spec.components, spec.paths[i]) {
        SameElements(spec.paths, sorted, spec.paths[i]);
        var j :| 0 <= j < |sorted| && sorted[j] == spec.paths[i];
      }
    }
  }

  // ----- agreement -----------------------------------------------------------------------------

  /** The references end, the methods hold objects on the way, and none is spelled in two ways. */
  ghost predicate Uniform(components: R.Components, item: R.Item) {
    exists n: nat :: R.Ends(components, item, n) && R.TrailObjects(R.Trail(components, item, n))
                     && R.OneSpelling(R.Trail(components, item, n))
  }

  ghost predicate UniformSpec(spec: Spec) {
    forall i :: 0 <= i < |spec.paths| && SLASH <= spec.paths[i].route && spec.paths[i].item.Some? ==>
      Uniform(spec.components, spec.paths[i].item.value)
  }

  lemma {:induction false} UnderMembers(es: seq<R.Entry>, m: Text, v: R.Value)
    ensures v in R.Under(es, m) <==> exists i :: 0 <= i < |es| && R.Lower(es[i].key) == m && es[i].value == v
  {
    if es != [] {
      UnderMembers(es[1..], m, v);
      if i :| 0 <= i < |es[1..]| && R.Lower(es[1..][i].key) == m && es[1..][i].value == v { assert es[i + 1] == es[1..][i]; }
      if i :| 0 <= i < |es| && R.Lower(es[i].key) == m && es[i].value == v && i > 0 { assert es[1..][i - 1] == es[i]; }
    }
  }

  /** What the importer lists are operations under lower-case methods. */
  lemma {:induction false} ListedShape(es: seq<R.Entry>, ops: seq<R.Entry>)
    requires R.Listed(es) == Ok(ops)
    ensures forall i :: 0 <= i < |ops| ==> ops[i].value.Operation? && ops[i].key in R.METHODS
  {
    hide R.METHODS, R.Lower;
    if es != [] {
      if R.IsMethod(es[0].key) { ListedShape(es[1..], ops[1..]); } else { ListedShape(es[1..], ops); }
    }
  }

  lemma {:induction false} RouteMembers(route: Text, ops: seq<R.Entry>, p: Place)
    ensures p in RoutePlaces(route, ops) <==>
            exists i :: 0 <= i < |ops| && ops[i].value.Operation? && p == Place(route, Upper(ops[i].key), ops[i].value.id)
  {
    hide Upper;
    if ops != [] {
      RouteMembers(route, ops[1..], p);
      if i :| 0 <= i < |ops[1..]| && ops[1..][i].value.Operation? && p == Place(route, Upper(ops[1..][i].key), ops[1..][i].value.id) {
        assert ops[i + 1] == ops[1..][i];
      }
      if i :| 0 <= i < |ops| && ops[i].value.Operation? && p == Place(route, Upper(ops[i].key), ops[i].value.id) && i > 0 {
        assert ops[1..][i - 1] == ops[i];
      }
    }
  }

  /** One path: the importer's places are the methods the answers find. */
  lemma PathAgrees(components: R.Components, path: Path, ops: seq<R.Entry>, p: Place)
    requires SLASH <= path.route && path.item.Some? && Uniform(components, path.item.value)
    requires R.ImporterOps(components, path.item.value) == Ok(ops)
    ensures p in RoutePlaces(path.route, ops) <==>
            exists m :: m in R.METHODS && Behind(components, path, m) == Some(p.ref) && p == Place(path.route, Upper(m), p.ref)
  {
    hide R.METHODS, R.Lower, R.Under, R.Listed, R.Effective, R.Resolve, R.Lookup, R.Trail, R.Outermost, RoutePlaces, Upper;
    var item := path.item.value;
    var n: nat :| R.Ends(components, item, n) && R.TrailObjects(R.Trail(components, item, n))
                  && R.OneSpelling(R.Trail(components, item, n));
    R.EffectiveOk(components, item, [], n);
    var effective := R.Effective(components, item, []).value;
    R.ResolversAgreeExactly(components, item, n, effective);
    assert R.Agree(ops, effective);
    ListedShape(Sort(R.KeyLe, R.Resolve(components, item, []).value), ops);
    RouteMembers(path.route, ops, p);
    if i :| 0 <= i < |ops| && ops[i].value.Operation? && p == Place(path.route, Upper(ops[i].key), ops[i].value.id) {
      var m := ops[i].key;
      R.MethodLower(m);
      UnderMembers(ops, m, ops[i].value);
      assert Behind(components, path, m) == Some(p.ref);
    }
    if m :| m in R.METHODS && Behind(components, path, m) == Some(p.ref) && p == Place(path.route, Upper(m), p.ref) {
      UnderMembers(ops, m, R.Operation(p.ref));
      assert R.Operation(p.ref) in R.Under(ops, m);
      var i :| 0 <= i < |ops| && R.Lower(ops[i].key) == m && ops[i].value == R.Operation(p.ref);
      R.MethodLower(ops[i].key);
    }
  }

  /** Some path of the list holds this place for the answers. */
  ghost predicate FoundIn(components: R.Components, paths: seq<Path>, p: Place) {
    exists i, m :: 0 <= i < |paths| && m in R.METHODS && Behind(components, paths[i], m) == Some(p.ref)
                   && p == Place(paths[i].route, Upper(m), p.ref)
  }

  lemma FoundCons(components: R.Components, path: Path, rest: seq<Path>, p: Place)
    ensures FoundIn(components, [path] + rest, p) <==> FoundIn(components, [path], p) || FoundIn(components, rest, p)
  {
    hide R.METHODS, Behind, Upper;
    var all := [path] + rest;
    if i, m :| 0 <= i < |rest| && m in R.METHODS && Behind(components, rest[i], m) == Some(p.ref)
               && p == Place(rest[i].route, Upper(m), p.ref) {
      assert all[i + 1] == rest[i];
    }
    if i, m :| 0 <= i < |all| && m in R.METHODS && Behind(components, all[i], m) == Some(p.ref)
               && p == Place(all[i].route, Upper(m), p.ref) && i > 0 {
      assert rest[i - 1] == all[i];
    }
    if FoundIn(components, [path], p) {
      var i, m :| 0 <= i < 1 && m in R.METHODS && Behind(components, [path][i], m) == Some(p.ref)
                  && p == Place([path][i].route, Upper(m), p.ref);
      assert all[0] == [path][i];
    }
    if i, m :| 0 <= i < |all| && m in R.METHODS && Behind(components, all[i], m) == Some(p.ref)
               && p == Place(all[i].route, Upper(m), p.ref) && i == 0 {
      assert [path][0] == all[0];
    }
  }

  lemma FoundOne(components: R.Components, path: Path, p: Place)
    ensures FoundIn(components, [path], p) <==>
            exists m :: m in R.METHODS && Behind(components, path, m) == Some(p.ref) && p == Place(path.route, Upper(m), p.ref)
  {
    hide R.METHODS, Behind, Upper;
    if m :| m in R.METHODS && Behind(components, path, m) == Some(p.ref) && p == Place(path.route, Upper(m), p.ref) {
      assert [path][0] == path;
    }
  }

  lemma {:induction false} PlacesAgree(components: R.Components, paths: seq<Path>, places: seq<Place>, p: Place)
    requires PlacesOf(components, paths) == Some(places)
    requires forall i :: 0 <= i < |paths| && SLASH <= paths[i].route && paths[i].item.Some? ==> Uniform(components, paths[i].item.value)
    ensures p in places <==> FoundIn(components, paths, p)
  {
    hide R.ImporterOps, Uniform, FoundIn, RoutePlaces;
    if paths == [] {
      NothingFound(components, p);
    } else {
      var path, rest := paths[0], PlacesOf(components, paths[1..]).value;
      PlacesAgree(components, paths[1..], rest, p);
      assert paths == [path] + paths[1..];
      FoundCons(components, path, paths[1..], p);
      FoundOne(components, path, p);
      if T("x-") <= path.route {
        ExtensionSkipped(components, path);
      } else {
        PathAgrees(components, path, R.ImporterOps(components, path.item.value).value, p);
      }
    }
  }

  lemma NothingFound(components: R.Components, p: Place)
    ensures !FoundIn(components, [], p)
  {
  }

  lemma ExtensionSkipped(components: R.Components, path: Path)
    requires T("x-") <= path.route
    ensures forall m :: Behind(components, path, m).None?
  {
    assert path.route[0] == T("x-")[0];
  }

  /** The places of the importer are those of the answers. */
  lemma ImportedPlacesAgree(spec: Spec, places: seq<Place>, p: Place)
    requires UniformSpec(spec) && ImportedPlaces(spec) == Some(places)
    ensures p in places <==> FoundIn(spec.components, spec.paths, p)
  {
    hide PlacesOf, Uniform, Sort, Behind, Upper, R.METHODS;
    var sorted := Sort(PathLe, spec.paths);
    forall i | 0 <= i < |sorted| && SLASH <= sorted[i].route && sorted[i].item.Some?
      ensures Uniform(spec.components, sorted[i].item.value)
    {
      SameElements(sorted, spec.paths, sorted[i]);
      var j :| 0 <= j < |spec.paths| && spec.paths[j] == sorted[i];
    }
    PlacesAgree(spec.components, sorted, places, p);
    FoundPermuted(spec.components, sorted, spec.paths, p);
    FoundPermuted(spec.components, spec.paths, sorted, p);
  }

  lemma FoundPermuted(components: R.Components, xs: seq<Path>, ys: seq<Path>, p: Place)
    requires multiset(xs) == multiset(ys)
    ensures FoundIn(components, xs, p) ==> FoundIn(components, ys, p)
  {
    hide Behind, Upper, R.METHODS;
    if FoundIn(components, xs, p) {
      var i, m :| 0 <= i < |xs| && m in R.METHODS && Behind(components, xs[i], m) == Some(p.ref)
                  && p == Place(xs[i].route, Upper(m), p.ref);
      SameElements(xs, ys, xs[i]);
      var j :| 0 <= j < |ys| && ys[j] == xs[i];
    }
  }

  /** An answer changes exactly the operation objects that the importer put at the places of its surface. */
  lemma TargetsAgree(c: Conv, spec: Spec, places: seq<Place>, surface: Text)
    requires UniformSpec(spec) && ImportedPlaces(spec) == Some(places)
    ensures AnswerTargets(c, spec, surface) == A.Targets(c, Document(places, spec.ops, spec.schemes), surface)
  {
    hide UniformSpec, ImportedPlaces, Behind, Upper, R.METHODS, SurfaceId;
    var targets := A.Targets(c, Document(places, spec.ops, spec.schemes), surface);
    forall ref | ref in AnswerTargets(c, spec, surface) ensures ref in targets {
      var i, m :| 0 <= i < |spec.paths| && m in R.METHODS && Behind(spec.components, spec.paths[i], m) == Some(ref)
                  && ref in spec.ops && SurfaceId(c, Place(spec.paths[i].route, Upper(m), ref), spec.ops[ref].fixed) == surface;
      var p := Place(spec.paths[i].route, Upper(m), ref);
      ImportedPlacesAgree(spec, places, p);
      var j :| 0 <= j < |places| && places[j] == p;
    }
    forall ref | ref in targets ensures ref in AnswerTargets(c, spec, surface) {
      var j :| 0 <= j < |places| && places[j].ref == ref && ref in spec.ops && SurfaceId(c, places[j], spec.ops[ref].fixed) == surface;
      ImportedPlacesAgree(spec, places, places[j]);
      var i, m :| 0 <= i < |spec.paths| && m in R.METHODS && Behind(spec.components, spec.paths[i], m) == Some(ref)
                  && places[j] == Place(spec.paths[i].route, Upper(m), ref);
    }
  }
}
