/** The `ScryForge` facade of src/scryforge.ts: which actor each token
    colour (category) stands for, the camera and calibration in use, and
    `scry`, which turns the categories seen on the table into actor
    positions in world coordinates.

    The tracked-actor map is kept as a sequence in insertion order (the
    iteration order of a JavaScript `Map`) with at most one entry per
    category. The scrying orb and the world-transformer factory are
    collaborators whose code is not part of this model; they are passed to
    `Scry` as total functions standing for what they return. */
module ScryForgeCore {
  import opened Types

  datatype Category =
    | Red | Blue | Green | Violet | Yellow | Orange | Turquoise | Pink | White | Black
    | LimeGreenViolet | PinkGreen | YellowNightBlue | LightBlueOrange | BrownTurquoise
    | GiantRedOctopus | Treant
    | AncientGoldDragon | AncientSilverDragon | AncientBlueDragon | AncientGreenDragon
    | BlueDracoLich | AncientRedDragon | AncientWhiteDragon | AncientBlackDragon
    | AncientGreyDragon | AncientPurpleDragon

  datatype TrackedActor = TrackedActor(actorId: string, category: Category)

  /** A token of one category located in the camera image. */
  datatype CategoryPosition = CategoryPosition(category: Category, x: real, y: real, width: real, height: real)

  datatype ActorPosition = ActorPosition(actorId: string, x: real, y: real)

  /** What the scrying orb returns; `markersPoints` may be missing. */
  datatype ScryData = ScryData(categoryPositions: seq<CategoryPosition>, markersPoints: Option<seq<Point>>)

  /** A handle on the camera the facade was given. */
  datatype Camera = Camera(name: string)

  datatype OrbOutcome = OrbFailed | Scried(data: ScryData)

  datatype TransformerOutcome = TransformerFailed | Transformer(transform: (real, real) -> Point)

  datatype ScryError = CameraNotSet | OrbError | TransformerError

  datatype ScryResult = Positions(positions: seq<ActorPosition>) | ScryFailed(error: ScryError)

  // ---------------------------------------------------------------------
  // The tracked-actor map
  // ---------------------------------------------------------------------

  /** The keys of the map, in insertion order. */
  function CategoriesOf(e: seq<TrackedActor>): (r: seq<Category>)
    ensures |r| == |e|
    ensures forall k :: 0 <= k < |e| ==> r[k] == e[k].category
  {
    if e == [] then [] else [e[0].category] + CategoriesOf(e[1..])
  }

  predicate HasCategory(e: seq<TrackedActor>, c: Category)
  {
    c in CategoriesOf(e)
  }

  predicate DistinctSeq(s: seq<Category>)
  {
    forall i, j :: 0 <= i < j < |s| ==> s[i] != s[j]
  }

  /** At most one entry per category: the keys of a map. */
  predicate DistinctCategories(e: seq<TrackedActor>)
  {
    DistinctSeq(CategoriesOf(e))
  }

  lemma DistinctCons(x: Category, s: seq<Category>)
    ensures DistinctSeq([x] + s) <==> x !in s && DistinctSeq(s)
  {
    var u := [x] + s;
    assert forall k :: 0 <= k < |s| ==> s[k] == u[k + 1];
    if DistinctSeq(u) {
      forall k | 0 <= k < |s|
        ensures s[k] != x
      {
        assert u[0] != u[k + 1];
      }
      forall i, j | 0 <= i < j < |s|
        ensures s[i] != s[j]
      {
        assert u[i + 1] != u[j + 1];
      }
    }
    if x !in s && DistinctSeq(s) {
      forall i, j | 0 <= i < j < |u|
        ensures u[i] != u[j]
      {
        if i == 0 {
          assert u[j] == s[j - 1];
        }
      }
    }
  }

  /** `Map.get`: the entry for category c. */
  function Lookup(e: seq<TrackedActor>, c: Category): (r: Option<TrackedActor>)
    ensures r.None? <==> !HasCategory(e, c)
    ensures r.Some? ==> r.value in e && r.value.category == c
  {
    if e == [] then None
    else if e[0].category == c then Some(e[0])
    else Lookup(e[1..], c)
  }

  /** `Map.set`: replace the entry of the actor's category where it stands,
      or append a new entry. */
  function Upsert(e: seq<TrackedActor>, a: TrackedActor): seq<TrackedActor>
  {
    if e == [] then [a]
    else if e[0].category == a.category then [a] + e[1..]
    else [e[0]] + Upsert(e[1..], a)
  }

  /** `Map.delete`: drop the entry of category c. */
  function DeleteCategory(e: seq<TrackedActor>, c: Category): seq<TrackedActor>
  {
    if e == [] then []
    else if e[0].category == c then DeleteCategory(e[1..], c)
    else [e[0]] + DeleteCategory(e[1..], c)
  }

  /** The map left after removing every entry of the given actor. */
  function Without(e: seq<TrackedActor>, actorId: string): seq<TrackedActor>
  {
    if e == [] then []
    else if e[0].actorId == actorId then Without(e[1..], actorId)
    else [e[0]] + Without(e[1..], actorId)
  }

  /** `getTrackedActor`: the first tracked entry of the actor. */
  function FindByActor(e: seq<TrackedActor>, actorId: string): (r: Option<TrackedActor>)
    ensures r.None? <==> forall k :: 0 <= k < |e| ==> e[k].actorId != actorId
    ensures r.Some? ==>
      exists k :: 0 <= k < |e| && e[k] == r.value && r.value.actorId == actorId
        && forall j :: 0 <= j < k ==> e[j].actorId != actorId
  {
    if e == [] then None
    else if e[0].actorId == actorId then Some(e[0])
    else
      var r := FindByActor(e[1..], actorId);
      assert forall k :: 1 <= k < |e| ==> e[k] == e[1..][k - 1];
      if r.Some? then
        var k :| 0 <= k < |e[1..]| && e[1..][k] == r.value && r.value.actorId == actorId
          && forall j :: 0 <= j < k ==> e[1..][j].actorId != actorId;
        assert e[k + 1] == r.value;
        r
      else r
  }

  /** `set` keeps the keys in place and appends a new one at the end. */
  lemma {:induction false} UpsertCategories(e: seq<TrackedActor>, a: TrackedActor)
    ensures CategoriesOf(Upsert(e, a)) ==
      (if HasCategory(e, a.category) then CategoriesOf(e) else CategoriesOf(e) + [a.category])
    ensures !HasCategory(e, a.category) ==> Upsert(e, a) == e + [a]
  {
    if e != [] && e[0].category != a.category {
      UpsertCategories(e[1..], a);
      assert e == [e[0]] + e[1..];
      assert CategoriesOf(Upsert(e, a)) == [e[0].category] + CategoriesOf(Upsert(e[1..], a));
    }
  }

  /** After `set`, the category maps to the new entry and every other
      category to what it mapped to before. */
  lemma {:induction false} UpsertLookup(e: seq<TrackedActor>, a: TrackedActor, c: Category)
    ensures Lookup(Upsert(e, a), c) == (if c == a.category then Some(a) else Lookup(e, c))
  {
    if e != [] && e[0].category != a.category {
      UpsertLookup(e[1..], a, c);
    } else if e != [] {
      assert ([a] + e[1..])[1..] == e[1..];
    }
  }

  lemma UpsertKeepsDistinct(e: seq<TrackedActor>, a: TrackedActor)
    requires DistinctCategories(e)
    ensures DistinctCategories(Upsert(e, a))
    ensures |Upsert(e, a)| == |e| + (if HasCategory(e, a.category) then 0 else 1)
  {
    UpsertCategories(e, a);
    if !HasCategory(e, a.category) {
      var s := CategoriesOf(e);
      var u := s + [a.category];
      forall i, j | 0 <= i < j < |u|
        ensures u[i] != u[j]
      {
        if j == |s| {
          assert u[i] == s[i];
        } else {
          assert u[i] == s[i] && u[j] == s[j];
        }
      }
    }
  }

  /** Deleting a category that is not there changes nothing. */
  lemma {:induction false} DeleteAbsent(e: seq<TrackedActor>, c: Category)
    requires !HasCategory(e, c)
    ensures DeleteCategory(e, c) == e
  {
    if e != [] {
      assert CategoriesOf(e) == [e[0].category] + CategoriesOf(e[1..]);
      DeleteAbsent(e[1..], c);
      assert e == [e[0]] + e[1..];
    }
  }

  lemma {:induction false} DeleteAppend(a: seq<TrackedActor>, b: seq<TrackedActor>, c: Category)
    ensures DeleteCategory(a + b, c) == DeleteCategory(a, c) + DeleteCategory(b, c)
  {
    if a == [] {
      assert a + b == b;
    } else {
      assert (a + b)[1..] == a[1..] + b;
      DeleteAppend(a[1..], b, c);
    }
  }

  lemma {:induction false} WithoutAppend(a: seq<TrackedActor>, b: seq<TrackedActor>, actorId: string)
    ensures Without(a + b, actorId) == Without(a, actorId) + Without(b, actorId)
  {
    if a == [] {
      assert a + b == b;
    } else {
      assert (a + b)[1..] == a[1..] + b;
      WithoutAppend(a[1..], b, actorId);
    }
  }

  /** Removal keeps a sub-list of the entries: every kept entry was there,
      and so was its category. */
  lemma {:induction false} WithoutKeepsEntries(e: seq<TrackedActor>, actorId: string)
    ensures forall t :: t in Without(e, actorId) ==> t in e && t.actorId != actorId
    ensures forall c :: HasCategory(Without(e, actorId), c) ==> HasCategory(e, c)
  {
    if e != [] {
      WithoutKeepsEntries(e[1..], actorId);
      assert CategoriesOf(e) == [e[0].category] + CategoriesOf(e[1..]);
      if e[0].actorId != actorId {
        var w := Without(e[1..], actorId);
        assert CategoriesOf([e[0]] + w) == [e[0].category] + CategoriesOf(w);
      }
    }
  }

  /** What `removeActorCategory` promises: no entry of the actor is left
      and every entry of another actor stays. */
  lemma {:induction false} WithoutMembers(e: seq<TrackedActor>, actorId: string)
    ensures forall t :: t in Without(e, actorId) <==> t in e && t.actorId != actorId
  {
    if e != [] {
      WithoutMembers(e[1..], actorId);
      assert e == [e[0]] + e[1..];
    }
  }

  /** Removal keeps the keys distinct. */
  lemma {:induction false} WithoutKeepsDistinct(e: seq<TrackedActor>, actorId: string)
    requires DistinctCategories(e)
    ensures DistinctCategories(Without(e, actorId))
  {
    if e != [] {
      var t := e[1..];
      assert CategoriesOf(e) == [e[0].category] + CategoriesOf(t);
      DistinctCons(e[0].category, CategoriesOf(t));
      WithoutKeepsDistinct(t, actorId);
      if e[0].actorId != actorId {
        var w := Without(t, actorId);
        WithoutKeepsEntries(t, actorId);
        assert CategoriesOf([e[0]] + w) == [e[0].category] + CategoriesOf(w);
        DistinctCons(e[0].category, CategoriesOf(w));
      }
    }
  }

  /** Looking a category up after removing an actor: gone if it was that
      actor's, unchanged otherwise. */
  lemma {:induction false} LookupWithout(e: seq<TrackedActor>, actorId: string, c: Category)
    requires DistinctCategories(e)
    ensures Lookup(Without(e, actorId), c) ==
      (if Lookup(e, c).Some? && Lookup(e, c).value.actorId == actorId then None else Lookup(e, c))
  {
    if e != [] {
      var t := e[1..];
      assert CategoriesOf(e) == [e[0].category] + CategoriesOf(t);
      DistinctCons(e[0].category, CategoriesOf(t));
      LookupWithout(t, actorId, c);
      if e[0].actorId == actorId {
        assert Without(e, actorId) == Without(t, actorId);
        if e[0].category == c {
          assert Lookup(t, c) == None;
        }
      } else {
        var w := Without(t, actorId);
        assert Without(e, actorId) == [e[0]] + w;
        if e[0].category != c {
          assert ([e[0]] + w)[1..] == w;
        }
      }
    }
  }

  /** With distinct keys every entry is what its own category maps to. */
  lemma {:induction false} LookupOwnEntry(e: seq<TrackedActor>, k: int)
    requires DistinctCategories(e) && 0 <= k < |e|
    ensures Lookup(e, e[k].category) == Some(e[k])
  {
    if k > 0 {
      assert CategoriesOf(e) == [e[0].category] + CategoriesOf(e[1..]);
      DistinctCons(e[0].category, CategoriesOf(e[1..]));
      assert e[k] == e[1..][k - 1];
      assert CategoriesOf(e)[0] != CategoriesOf(e)[k];
      LookupOwnEntry(e[1..], k - 1);
    }
  }

  /** The keys of a slice are the slice of the keys. */
  lemma CategoriesOfSlice(e: seq<TrackedActor>, i: int, j: int)
    requires 0 <= i <= j <= |e|
    ensures CategoriesOf(e[i..j]) == CategoriesOf(e)[i..j]
  {
  }

  /** With distinct keys, the key of entry i occurs nowhere before or
      after it. */
  lemma KeyOnlyAt(e: seq<TrackedActor>, i: int)
    requires DistinctCategories(e) && 0 <= i < |e|
    ensures !HasCategory(e[..i], e[i].category)
    ensures !HasCategory(e[i + 1..], e[i].category)
  {
    var cs := CategoriesOf(e);
    CategoriesOfSlice(e, 0, i);
    CategoriesOfSlice(e, i + 1, |e|);
    assert e[..i] == e[0..i];
    assert forall k :: 0 <= k < i ==> cs[k] != cs[i];
    assert forall k :: i + 1 <= k < |cs| ==> cs[k] != cs[i];
  }

  /** One step of the removal loop on an entry of the actor: deleting its
      category extends the removal by one entry. */
  lemma RemoveMatchStep(entries: seq<TrackedActor>, i: int, actorId: string)
    requires DistinctCategories(entries) && 0 <= i < |entries|
    requires entries[i].actorId == actorId
    ensures Without(entries[..i + 1], actorId) + entries[i + 1..] ==
      DeleteCategory(Without(entries[..i], actorId) + entries[i..], entries[i].category)
  {
    var t := entries[i];
    var prefix := entries[..i];
    var kept := Without(prefix, actorId);
    var rest := entries[i + 1..];
    assert entries[..i + 1] == prefix + [t];
    assert entries[i..] == [t] + rest;
    assert Without(prefix + [t], actorId) == kept by {
      WithoutAppend(prefix, [t], actorId);
      assert [t][1..] == [];
      assert Without([t], actorId) == [];
      assert kept + [] == kept;
    }
    KeyOnlyAt(entries, i);
    assert DeleteCategory(kept, t.category) == kept by {
      WithoutKeepsEntries(prefix, actorId);
      DeleteAbsent(kept, t.category);
    }
    assert DeleteCategory([t] + rest, t.category) == rest by {
      assert ([t] + rest)[1..] == rest;
      DeleteAbsent(rest, t.category);
    }
    DeleteAppend(kept, [t] + rest, t.category);
  }

  /** One step of the removal loop on an entry of another actor: nothing
      to delete. */
  lemma RemoveOtherStep(entries: seq<TrackedActor>, i: int, actorId: string)
    requires 0 <= i < |entries|
    requires entries[i].actorId != actorId
    ensures Without(entries[..i + 1], actorId) + entries[i + 1..] ==
      Without(entries[..i], actorId) + entries[i..]
  {
    var t := entries[i];
    assert entries[..i + 1] == entries[..i] + [t];
    WithoutAppend(entries[..i], [t], actorId);
    assert Without([t], actorId) == [t] by {
      assert [t][1..] == [];
    }
    assert entries[i..] == [t] + entries[i + 1..];
  }

  /** One step of the removal loop, whichever actor the entry belongs to. */
  lemma RemoveStep(entries: seq<TrackedActor>, i: int, actorId: string, current: seq<TrackedActor>)
    requires DistinctCategories(entries) && 0 <= i < |entries|
    requires current == Without(entries[..i], actorId) + entries[i..]
    ensures (if entries[i].actorId == actorId then DeleteCategory(current, entries[i].category) else current)
      == Without(entries[..i + 1], actorId) + entries[i + 1..]
  {
    if entries[i].actorId == actorId {
      RemoveMatchStep(entries, i, actorId);
    } else {
      RemoveOtherStep(entries, i, actorId);
    }
  }

  /** The removal loop's invariant at its exit is the removal of the actor. */
  lemma RemoveDone(entries: seq<TrackedActor>, actorId: string, current: seq<TrackedActor>)
    requires DistinctCategories(entries)
    requires current == Without(entries[..|entries|], actorId) + entries[|entries|..]
    ensures current == Without(entries, actorId)
    ensures DistinctCategories(current)
  {
    assert entries[..|entries|] == entries;
    assert entries[|entries|..] == [];
    assert current == Without(entries, actorId) + [];
    WithoutKeepsDistinct(entries, actorId);
  }

  // ---------------------------------------------------------------------
  // Turning category positions into actor positions
  // ---------------------------------------------------------------------

  /** The actor id tracked for category c, or "" when none is. */
  function ActorIdFor(e: seq<TrackedActor>, c: Category): string
  {
    match Lookup(e, c)
    case Some(t) => t.actorId
    case None => ""
  }

  /** One category position in world coordinates, labelled with its actor. */
  function Locate(e: seq<TrackedActor>, p: CategoryPosition, transform: (real, real) -> Point): ActorPosition
  {
    var w := transform(p.x, p.y);
    ActorPosition(ActorIdFor(e, p.category), w.x, w.y)
  }

  /** Some actor with a non-empty id is tracked for this category. */
  predicate Labelled(e: seq<TrackedActor>, p: CategoryPosition)
  {
    ActorIdFor(e, p.category) != ""
  }

  /** The `map` then `filter` of `scry`: every category position whose
      category is tracked, in world coordinates, in the orb's order. */
  function PositionsOf(e: seq<TrackedActor>, ps: seq<CategoryPosition>, transform: (real, real) -> Point): (r: seq<ActorPosition>)
    ensures |r| <= |ps|
    ensures forall k :: 0 <= k < |r| ==> r[k].actorId != ""
  {
    if ps == [] then []
    else
      var here := Locate(e, ps[0], transform);
      var rest := PositionsOf(e, ps[1..], transform);
      if here.actorId != "" then [here] + rest else rest
  }

  /** One category position gives one actor position when its category is
      tracked, and none otherwise. */
  lemma PositionsOfSingle(e: seq<TrackedActor>, p: CategoryPosition, transform: (real, real) -> Point)
    ensures PositionsOf(e, [p], transform) == if Labelled(e, p) then [Locate(e, p, transform)] else []
  {
    assert [p][1..] == [];
  }

  /** The positions of two lists of tokens are the positions of the first
      followed by those of the second: the orb's order is kept and every
      token is looked at once. */
  lemma {:induction false} PositionsOfAppend(e: seq<TrackedActor>, ps1: seq<CategoryPosition>,
                                             ps2: seq<CategoryPosition>, transform: (real, real) -> Point)
    ensures PositionsOf(e, ps1 + ps2, transform) == PositionsOf(e, ps1, transform) + PositionsOf(e, ps2, transform)
    decreases |ps1|
  {
    if ps1 == [] {
      assert ps1 + ps2 == ps2;
    } else {
      assert (ps1 + ps2)[0] == ps1[0];
      assert (ps1 + ps2)[1..] == ps1[1..] + ps2;
      PositionsOfAppend(e, ps1[1..], ps2, transform);
    }
  }

  /** Every reported position belongs to a tracked actor, and every position
      of a tracked category is reported. */
  lemma {:induction false} PositionsComplete(e: seq<TrackedActor>, ps: seq<CategoryPosition>, transform: (real, real) -> Point)
    ensures forall a :: a in PositionsOf(e, ps, transform) ==>
      exists p :: p in ps && Labelled(e, p) && a == Locate(e, p, transform)
    ensures forall p :: p in ps && Labelled(e, p) ==> Locate(e, p, transform) in PositionsOf(e, ps, transform)
    ensures forall a :: a in PositionsOf(e, ps, transform) ==>
      exists t :: t in e && t.actorId == a.actorId
  {
    if ps != [] {
      PositionsComplete(e, ps[1..], transform);
      assert forall p :: p in ps[1..] ==> p in ps;
      assert ps == [ps[0]] + ps[1..];
    }
  }

  /** `scry` once the camera is known and no other scry is in flight: ask
      the orb, give up with no positions when fewer than four marker points
      came back, otherwise build the transformer from the marker points and
      the table corners and map the tracked categories through it. */
  function ScryOutcome(
    e: seq<TrackedActor>, camera: Camera, corners: seq<Point>,
    orb: Camera -> OrbOutcome,
    factory: (seq<Point>, seq<Point>) -> TransformerOutcome): ScryResult
  {
    match orb(camera)
    case OrbFailed => ScryFailed(OrbError)
    case Scried(data) =>
      if data.markersPoints.None? || |data.markersPoints.value| < 4 then Positions([])
      else
        match factory(data.markersPoints.value, corners)
        case TransformerFailed => ScryFailed(TransformerError)
        case Transformer(transform) => Positions(PositionsOf(e, data.categoryPositions, transform))
  }

  /** Fewer than four marker points: no positions, whatever the orb saw. */
  lemma TooFewMarkersGiveNothing(
    e: seq<TrackedActor>, camera: Camera, corners: seq<Point>,
    orb: Camera -> OrbOutcome, factory: (seq<Point>, seq<Point>) -> TransformerOutcome)
    requires orb(camera).Scried?
    requires orb(camera).data.markersPoints.None? || |orb(camera).data.markersPoints.value| < 4
    ensures ScryOutcome(e, camera, corners, orb, factory) == Positions([])
  {
  }

  /** A successful scry reports only tracked actors, each at the world
      position of one of its category's tokens. */
  lemma ScryReportsTrackedActors(
    e: seq<TrackedActor>, camera: Camera, corners: seq<Point>,
    orb: Camera -> OrbOutcome, factory: (seq<Point>, seq<Point>) -> TransformerOutcome)
    requires ScryOutcome(e, camera, corners, orb, factory).Positions?
    ensures forall a :: a in ScryOutcome(e, camera, corners, orb, factory).positions ==>
      a.actorId != "" && exists t :: t in e && t.actorId == a.actorId
  {
    match orb(camera)
    case OrbFailed =>
    case Scried(data) =>
      if data.markersPoints.Some? && |data.markersPoints.value| >= 4 {
        match factory(data.markersPoints.value, corners)
        case TransformerFailed =>
        case Transformer(transform) =>
          PositionsComplete(e, data.categoryPositions, transform);
      }
  }

  // ---------------------------------------------------------------------
  // The facade object
  // ---------------------------------------------------------------------

  class ScryForge {
    var trackedActors: seq<TrackedActor>
    var camera: Option<Camera>
    var calibration: Option<Calibration>
    var isScrying: bool

    predicate Valid()
      reads this
    {
      DistinctCategories(trackedActors)
    }

    constructor()
      ensures Valid()
      ensures trackedActors == [] && camera == None && calibration == None && !isScrying
    {
      trackedActors := [];
      camera := None;
      calibration := None;
      isScrying := false;
    }

    /** `canScry`: a camera has been set. */
    function CanScry(): (r: bool)
      reads this
      ensures r <==> camera.Some?
    {
      camera != None
    }

    /** `setCamera`: a camera, or `null` to unset it so that `scry` is
        refused again. */
    method SetCamera(c: Option<Camera>)
      modifies this
      ensures camera == c && (CanScry() <==> c.Some?)
      ensures trackedActors == old(trackedActors) && calibration == old(calibration) && isScrying == old(isScrying)
    {
      camera := c;
    }

    method SetCalibration(c: Option<Calibration>)
      modifies this
      ensures calibration == c
      ensures trackedActors == old(trackedActors) && camera == old(camera) && isScrying == old(isScrying)
    {
      calibration := c;
    }

    method UpdateActorCategory(actorId: string, category: Category)
      requires Valid()
      modifies this
      ensures Valid()
      ensures trackedActors == Upsert(old(trackedActors), TrackedActor(actorId, category))
      ensures camera == old(camera) && calibration == old(calibration) && isScrying == old(isScrying)
    {
      UpsertKeepsDistinct(trackedActors, TrackedActor(actorId, category));
      trackedActors := Upsert(trackedActors, TrackedActor(actorId, category));
    }

    /** `removeActorCategory`: walk the entries in order and delete the
        category of each entry that belongs to the actor. */
    method RemoveActorCategory(actorId: string)
      requires Valid()
      modifies this`trackedActors
      ensures Valid()
      ensures trackedActors == Without(old(trackedActors), actorId)
    {
      var entries := trackedActors;
      var i := 0;
      while i < |entries|
        invariant 0 <= i <= |entries|
        invariant trackedActors == Without(entries[..i], actorId) + entries[i..]
      {
        var t := entries[i];
        RemoveStep(entries, i, actorId, trackedActors);
        if t.actorId == actorId {
          trackedActors := DeleteCategory(trackedActors, t.category);
        }
        i := i + 1;
      }
      RemoveDone(entries, actorId, trackedActors);
    }

    /** `getTrackedActor`: the first tracked entry of the actor, if any. */
    function GetTrackedActor(actorId: string): (r: Option<TrackedActor>)
      reads this
      ensures r.Some? ==> r.value in trackedActors && r.value.actorId == actorId
      ensures r.None? <==> forall k :: 0 <= k < |trackedActors| ==> trackedActors[k].actorId != actorId
      ensures r.Some? ==>
        exists k :: 0 <= k < |trackedActors| && trackedActors[k] == r.value
          && forall j :: 0 <= j < k ==> trackedActors[j].actorId != actorId
    {
      FindByActor(trackedActors, actorId)
    }

    /** `getTrackedActors`: the values of the map, one per tracked
        category, in insertion order. */
    function GetTrackedActors(): (r: seq<TrackedActor>)
      requires Valid()
      reads this
      ensures |r| == |trackedActors|
      ensures forall k :: 0 <= k < |r| ==> r[k] == trackedActors[k]
      ensures forall k :: 0 <= k < |r| ==> Lookup(trackedActors, r[k].category) == Some(r[k])
      ensures forall c :: Lookup(trackedActors, c).Some? ==> Lookup(trackedActors, c).value in r
    {
      forall k | 0 <= k < |trackedActors|
        ensures Lookup(trackedActors, trackedActors[k].category) == Some(trackedActors[k])
      {
        LookupOwnEntry(trackedActors, k);
      }
      trackedActors
    }

    /** `getAvailableCategories`: the categories in insertion order. */
    function GetAvailableCategories(): (r: seq<Category>)
      reads this
      ensures |r| == |trackedActors|
      ensures forall k :: 0 <= k < |r| ==> r[k] == trackedActors[k].category
      ensures forall c :: c in r <==> Lookup(trackedActors, c).Some?
    {
      CategoriesOf(trackedActors)
    }

    /** The first half of `scry`: refuse without a camera, return nothing
        while another scry is in flight, otherwise mark one as in flight. */
    method BeginScry() returns (early: Option<ScryResult>)
      modifies this
      ensures camera.None? ==> early == Some(ScryFailed(CameraNotSet)) && isScrying == old(isScrying)
      ensures camera.Some? && old(isScrying) ==> early == Some(Positions([])) && isScrying
      ensures camera.Some? && !old(isScrying) ==> early == None && isScrying
      ensures trackedActors == old(trackedActors) && camera == old(camera) && calibration == old(calibration)
    {
      if camera.None? {
        return Some(ScryFailed(CameraNotSet));
      }
      if isScrying {
        return Some(Positions([]));
      }
      isScrying := true;
      early := None;
    }

    /** The second half of `scry`: ask the orb, transform, and clear the
        in-flight flag whatever the outcome. */
    method FinishScry(corners: seq<Point>, orb: Camera -> OrbOutcome,
                      factory: (seq<Point>, seq<Point>) -> TransformerOutcome) returns (r: ScryResult)
      requires camera.Some?
      modifies this
      ensures trackedActors == old(trackedActors) && camera == old(camera) && calibration == old(calibration)
      ensures r == ScryOutcome(trackedActors, camera.value, corners, orb, factory)
      ensures !isScrying
    {
      r := ScryOutcome(trackedActors, camera.value, corners, orb, factory);
      isScrying := false;
    }

    /** `scry` run to completion with no other scry interleaved. */
    method Scry(corners: seq<Point>, orb: Camera -> OrbOutcome,
                factory: (seq<Point>, seq<Point>) -> TransformerOutcome) returns (r: ScryResult)
      modifies this
      ensures camera.None? ==> r == ScryFailed(CameraNotSet)
      ensures camera.Some? && old(isScrying) ==> r == Positions([])
      ensures camera.None? || old(isScrying) ==> isScrying == old(isScrying)
      ensures camera.Some? && !old(isScrying) ==>
        r == ScryOutcome(trackedActors, camera.value, corners, orb, factory) && !isScrying
      ensures r.Positions? ==> forall k :: 0 <= k < |r.positions| ==> r.positions[k].actorId != ""
      ensures trackedActors == old(trackedActors) && camera == old(camera) && calibration == old(calibration)
    {
      var early := BeginScry();
      if early.Some? {
        return early.value;
      }
      r := FinishScry(corners, orb, factory);
      if r.Positions? {
        ScryReportsTrackedActors(trackedActors, camera.value, corners, orb, factory);
      }
    }
  }
}
