/**
 * The map view extensions: reconciling the installed annotations of one class
 * with a new batch, clearing the map, clamping the zoom level and naming the
 * reuse identifiers of annotation views.
 *
 * An `MKMapView` is modelled as a class whose annotations form a set of tagged
 * values; the tag is the name of the annotation's class, which is what Swift's
 * `filter(type:)` and `is MKUserLocation` look at.
 */
module MapKit {

  /**
   * One annotation on the map: the name of its class and its identity under
   * Swift's `==` and `hashValue`, which is all that `Set(...)` and
   * `intersection` compare. An annotation in both the installed and the new
   * set keeps its installed object; whatever `==` ignores is not refreshed.
   */
  datatype Annotation = Annotation(className: string, key: int)

  /** The class of the marker MapKit shows for the user's own position. */
  const UserLocationClass: string := "MKUserLocation"

  /** The highest zoom level `setCenterCoordinate` passes on to `MapHelpers`. */
  const MaxZoomLevel: int := 28

  predicate IsUserLocation(a: Annotation) {
    a.className == UserLocationClass
  }

  /** `annotations.filter(type: T.self)`, as a set. */
  function OfClass(annotations: set<Annotation>, className: string): set<Annotation>
  {
    set a | a in annotations && a.className == className
  }

  /** `Set(newAnnotations)`: the distinct elements of an array. */
  function Elements(s: seq<Annotation>): set<Annotation>
  {
    set a | a in s
  }

  /** The three sets `updateAnnotations` computes. */
  datatype Reconciliation = Reconciliation(overlap: set<Annotation>, removed: set<Annotation>, added: set<Annotation>)

  /**
   * Compares the installed annotations of one class with the new ones: what
   * both share, what is to be removed and what is to be added. Removal only
   * touches installed annotations, addition only new ones, the three parts
   * are pairwise disjoint, and applying them yields exactly the new set.
   */
  function Reconcile(installed: set<Annotation>, incoming: set<Annotation>): (r: Reconciliation)
    ensures r.removed <= installed && r.added <= incoming
    ensures r.overlap <= installed && r.overlap <= incoming
    ensures r.removed !! r.added && r.removed !! r.overlap && r.added !! r.overlap
    ensures forall a :: a in installed && a in incoming ==> a in r.overlap
    ensures (installed - r.removed) + r.added == incoming
  {
    var overlap := incoming * installed;
    Reconciliation(overlap, installed - overlap, incoming - overlap)
  }

  /** The reconciliation `updateAnnotations(with: incoming)` performs on `annotations`. */
  function UpdatePlan(annotations: set<Annotation>, className: string, incoming: seq<Annotation>): Reconciliation
  {
    Reconcile(OfClass(annotations, className), Elements(incoming))
  }

  /** The annotations of a map after `updateAnnotations(with: incoming)` for the class `className`. */
  function AfterUpdate(annotations: set<Annotation>, className: string, incoming: seq<Annotation>): set<Annotation>
  {
    var plan := UpdatePlan(annotations, className, incoming);
    (annotations - plan.removed) + plan.added
  }

  /** Every element of `incoming` is of class `className` (Swift's `[T]`). */
  predicate AllOfClass(incoming: seq<Annotation>, className: string) {
    forall a :: a in incoming ==> a.className == className
  }

  /** After an update, the installed annotations of the class are exactly the new ones. */
  lemma {:induction false} UpdateInstallsExactly(annotations: set<Annotation>, className: string, incoming: seq<Annotation>)
    requires AllOfClass(incoming, className)
    ensures OfClass(AfterUpdate(annotations, className, incoming), className) == Elements(incoming)
  {
    var after := AfterUpdate(annotations, className, incoming);
    var plan := UpdatePlan(annotations, className, incoming);
    forall a | a in OfClass(after, className)
      ensures a in Elements(incoming)
    {
      if a !in plan.added {
        assert a in OfClass(annotations, className) - plan.removed;
      }
    }
  }

  /** An update never removes or adds an annotation of another class. */
  lemma UpdateKeepsOtherClasses(annotations: set<Annotation>, className: string, incoming: seq<Annotation>, a: Annotation)
    requires AllOfClass(incoming, className)
    requires a.className != className
    ensures a in AfterUpdate(annotations, className, incoming) <==> a in annotations
  {
  }

  /** An annotation that is both installed and new is neither removed nor added again. */
  lemma UpdateKeepsOverlap(annotations: set<Annotation>, className: string, incoming: seq<Annotation>, a: Annotation)
    requires a in annotations && a.className == className && a in incoming
    ensures a !in UpdatePlan(annotations, className, incoming).removed
    ensures a !in UpdatePlan(annotations, className, incoming).added
    ensures a in AfterUpdate(annotations, className, incoming)
  {
  }

  /** Repeated elements in the array make no difference: only the set of them counts. */
  lemma UpdateIgnoresDuplicates(annotations: set<Annotation>, className: string, incoming: seq<Annotation>, other: seq<Annotation>)
    requires forall a :: a in incoming <==> a in other
    ensures UpdatePlan(annotations, className, incoming) == UpdatePlan(annotations, className, other)
    ensures AfterUpdate(annotations, className, incoming + incoming) == AfterUpdate(annotations, className, incoming)
  {
    assert Elements(incoming) == Elements(other);
    assert Elements(incoming + incoming) == Elements(incoming);
  }

  /** Updating twice with the same annotations: the second update removes and adds nothing. */
  lemma {:induction false} UpdateIsIdempotent(annotations: set<Annotation>, className: string, incoming: seq<Annotation>)
    requires AllOfClass(incoming, className)
    ensures UpdatePlan(AfterUpdate(annotations, className, incoming), className, incoming).removed == {}
    ensures UpdatePlan(AfterUpdate(annotations, className, incoming), className, incoming).added == {}
    ensures AfterUpdate(AfterUpdate(annotations, className, incoming), className, incoming)
            == AfterUpdate(annotations, className, incoming)
  {
    UpdateInstallsExactly(annotations, className, incoming);
  }

  /**
   * What `removeAllAnnotations(excludeUserLocation:)` hands to
   * `removeAnnotations`. As written, `true` selects every annotation and
   * `false` every annotation but the user-location marker.
   */
  function AnnotationsToRemove(annotations: set<Annotation>, excludeUserLocation: bool): (r: set<Annotation>)
    ensures r <= annotations
    ensures excludeUserLocation ==> r == annotations
    ensures !excludeUserLocation ==> forall a :: a in annotations ==> (a in r <==> !IsUserLocation(a))
  {
    if excludeUserLocation then annotations else set a | a in annotations && !IsUserLocation(a)
  }

  /** What is left on the map after `removeAllAnnotations`: nothing, or only the user-location marker. */
  lemma RemoveAllLeaves(annotations: set<Annotation>, excludeUserLocation: bool)
    ensures excludeUserLocation ==> annotations - AnnotationsToRemove(annotations, excludeUserLocation) == {}
    ensures !excludeUserLocation ==>
      annotations - AnnotationsToRemove(annotations, excludeUserLocation)
      == set a | a in annotations && IsUserLocation(a)
  {
  }

  /** Contrary to its documentation, passing `true` removes the user-location marker and `false` keeps it. */
  lemma ExcludeUserLocationIsInverted(annotations: set<Annotation>, marker: Annotation)
    requires marker in annotations && IsUserLocation(marker)
    ensures marker in AnnotationsToRemove(annotations, true)
    ensures marker !in AnnotationsToRemove(annotations, false)
  {
  }

  /** `min(zoomLevel, 28)`: never above 28, and unchanged at or below it. */
  function ClampedZoomLevel(zoomLevel: int): (z: int)
    ensures z <= MaxZoomLevel
    ensures zoomLevel <= MaxZoomLevel ==> z == zoomLevel
    ensures zoomLevel > MaxZoomLevel ==> z == MaxZoomLevel
  {
    if zoomLevel <= MaxZoomLevel then zoomLevel else MaxZoomLevel
  }

  /**
   * An annotation-view class: the module and enclosing types it is declared
   * in, and its own unqualified name.
   */
  datatype AnnotationViewClass = AnnotationViewClass(qualifier: seq<string>, typeName: string)

  /**
   * `String(describing: type)`: the unqualified type name. The module and
   * enclosing types play no part in it.
   */
  function ReuseIdentifier(viewClass: AnnotationViewClass): string
  {
    viewClass.typeName
  }

  /**
   * Two view classes share a reuse identifier exactly when their unqualified
   * names agree, wherever they are declared.
   */
  lemma SameNameSameIdentifier(c1: AnnotationViewClass, c2: AnnotationViewClass)
    ensures ReuseIdentifier(c1) == ReuseIdentifier(c2) <==> c1.typeName == c2.typeName
  {
  }

  /** The registrations after `registerAnnotationView` of `viewClass`. */
  function Registered(views: map<string, AnnotationViewClass>, viewClass: AnnotationViewClass): map<string, AnnotationViewClass>
  {
    views[ReuseIdentifier(viewClass) := viewClass]
  }

  /**
   * Registering a class declared elsewhere under the same name replaces the
   * first registration: the first class is no longer registered anywhere
   * its identifier reaches.
   */
  lemma SameNamedRegistrationReplaces(views: map<string, AnnotationViewClass>,
                                      c1: AnnotationViewClass, c2: AnnotationViewClass)
    requires c1.typeName == c2.typeName && c1.qualifier != c2.qualifier
    ensures ReuseIdentifier(c1) in Registered(Registered(views, c1), c2)
    ensures Registered(Registered(views, c1), c2)[ReuseIdentifier(c1)] == c2
    ensures Registered(Registered(views, c1), c2)[ReuseIdentifier(c1)] != c1
  {
  }

  datatype Coordinate = Coordinate(latitude: real, longitude: real)

  /** The visible region, with its span represented by the zoom level it was computed from. */
  datatype CoordinateRegion = CoordinateRegion(center: Coordinate, zoomLevel: int)

  class MapView {
    var annotations: set<Annotation>
    var registeredViews: map<string, AnnotationViewClass>
    var region: CoordinateRegion

    constructor (region: CoordinateRegion)
      ensures annotations == {} && registeredViews == map[] && this.region == region
    {
      annotations := {};
      registeredViews := map[];
      this.region := region;
    }

    method AddAnnotations(added: set<Annotation>)
      modifies this`annotations
      ensures annotations == old(annotations) + added
    {
      annotations := annotations + added;
    }

    method RemoveAnnotations(removed: set<Annotation>)
      modifies this`annotations
      ensures annotations == old(annotations) - removed
    {
      annotations := annotations - removed;
    }

    /** `registerAnnotationView(_:)`: registers a view class under its reuse identifier. */
    method RegisterAnnotationView(viewClass: AnnotationViewClass)
      modifies this`registeredViews
      ensures registeredViews == Registered(old(registeredViews), viewClass)
      ensures ReuseIdentifier(viewClass) in registeredViews && registeredViews[ReuseIdentifier(viewClass)] == viewClass
      ensures forall id :: id in old(registeredViews) && id != ReuseIdentifier(viewClass)
                           ==> id in registeredViews && registeredViews[id] == old(registeredViews)[id]
    {
      registeredViews := registeredViews[ReuseIdentifier(viewClass) := viewClass];
    }

    /**
     * `updateAnnotations(with:)`: afterwards the installed annotations of the
     * class are exactly the new ones and no annotation of another class has
     * been touched.
     */
    method UpdateAnnotations(className: string, incoming: seq<Annotation>)
      requires AllOfClass(incoming, className)
      modifies this`annotations
      ensures annotations == AfterUpdate(old(annotations), className, incoming)
      ensures OfClass(annotations, className) == Elements(incoming)
      ensures forall a: Annotation :: a.className != className ==> (a in annotations <==> a in old(annotations))
    {
      var plan := Reconcile(OfClass(annotations, className), Elements(incoming));
      RemoveAnnotations(plan.removed);
      AddAnnotations(plan.added);
      UpdateInstallsExactly(old(annotations), className, incoming);
    }

    /** `removeAllAnnotations(excludeUserLocation:)`, as the code behaves. */
    method RemoveAllAnnotations(excludeUserLocation: bool := true)
      modifies this`annotations
      ensures annotations == old(annotations) - AnnotationsToRemove(old(annotations), excludeUserLocation)
      ensures excludeUserLocation ==> annotations == {}
      ensures !excludeUserLocation ==> annotations == set a | a in old(annotations) && IsUserLocation(a)
    {
      RemoveAllLeaves(annotations, excludeUserLocation);
      RemoveAnnotations(AnnotationsToRemove(annotations, excludeUserLocation));
    }

    /** `setCenterCoordinate(centerCoordinate:zoomLevel:animated:)`, with the zoom clamped to 28. */
    method SetCenterCoordinate(centerCoordinate: Coordinate, zoomLevel: int)
      modifies this`region
      ensures region == CoordinateRegion(centerCoordinate, ClampedZoomLevel(zoomLevel))
      ensures region.zoomLevel <= MaxZoomLevel
    {
      var zoom := ClampedZoomLevel(zoomLevel);
      region := CoordinateRegion(centerCoordinate, zoom);
    }
  }
}
