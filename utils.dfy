/**
 * DiffServiceAndServiceCache (pkg/controller/utils/utils.go): decides whether a Service's
 * annotations and a ServiceCache's spec disagree. As a side effect it sorts the
 * ServiceCache's URL list in place.
 */
module Utils {
  import opened GoStrings
  import opened GoSort
  import opened Store

  const KeyOfCacheableByDefault: string := "service-cache.github.io/default"
  const KeyOfCacheableUrls: string := "service-cache.github.io/URLs"

  /** Go's map index: "" for a missing key and for a nil map. */
  function Lookup(ann: Annotations, key: string): (v: string)
    ensures v != "" ==> ann.Some? && key in ann.value && ann.value[key] == v
    ensures ann.Some? && key in ann.value ==> v == ann.value[key]
  {
    if ann.Some? && key in ann.value then ann.value[key] else ""
  }

  /** TrimPrefix "[" then TrimSuffix "]": at most one bracket off each end. */
  function StripBrackets(u: string): string {
    TrimSuffix(TrimPrefix(u, "["), "]")
  }

  /** StripBrackets undoes the "[" + ... + "]" wrapping the encoder writes. */
  lemma StripBracketsWrapped(j: string)
    ensures StripBrackets("[" + j + "]") == j
  {
    var w := "[" + j + "]";
    assert HasPrefix(w, "[");
    assert w[1..] == j + "]";
    assert HasSuffix(j + "]", "]");
    assert (j + "]")[..|j|] == j;
  }

  /** The items of the Service's URLs annotation as the diff reads them. */
  function ServiceURLItems(ann: Annotations): seq<string> {
    Split(StripBrackets(TrimSpace(Lookup(ann, KeyOfCacheableUrls))), ',')
  }

  /** A URL list as Go ranges over it: a nil slice has no items. */
  function URLList(urls: Option<seq<string>>): seq<string> {
    if urls.Some? then urls.value else []
  }

  /** Whether the trimmed `default` annotation is the formatted flag. */
  predicate DefaultMatches(ann: Annotations, spec: Spec) {
    TrimSpace(Lookup(ann, KeyOfCacheableByDefault)) == FormatBool(spec.cacheableByDefault)
  }

  /**
   * The value DiffServiceAndServiceCache returns. `svc` None is a nil *Service and `sc`
   * None a nil *ServiceCache; true means "has a difference".
   */
  function HasDiff(svc: Option<Annotations>, sc: Option<Spec>): bool {
    if svc.None? && sc.None? then false
    else if svc.None? || sc.None? then true
    else if !DefaultMatches(svc.value, sc.value) then true
    else Join(SortStrings(ServiceURLItems(svc.value)), ",") != Join(SortStrings(URLList(sc.value.urls)), ",")
  }

  /** sort.Strings on a slice that may be nil. */
  function SortURLs(urls: Option<seq<string>>): (r: Option<seq<string>>)
    ensures r.Some? == urls.Some?
    ensures Sorted(URLList(r)) && multiset(URLList(r)) == multiset(URLList(urls))
  {
    if urls.Some? then Some(SortStrings(urls.value)) else None
  }

  /**
   * The ServiceCache spec after the diff has run on it: the URL list is sorted in place
   * only when the diff got past the `default` comparison.
   */
  function SpecAfterDiff(ann: Annotations, spec: Spec): Spec {
    if DefaultMatches(ann, spec) then spec.(urls := SortURLs(spec.urls)) else spec
  }

  /**
   * The diff itself, on the in-memory objects. `sc.spec.urls` is sorted in place through
   * the alias the source takes on it.
   */
  method DiffServiceAndServiceCache(svc: Service?, sc: ServiceCache?) returns (hasDiff: bool)
    modifies sc
    ensures hasDiff == HasDiff(if svc == null then None else Some(svc.annotations),
                               if sc == null then None else Some(old(sc.spec)))
    ensures sc != null && svc != null ==> sc.spec == SpecAfterDiff(svc.annotations, old(sc.spec))
    ensures sc != null && svc == null ==> sc.spec == old(sc.spec)
  {
    if svc == null && sc == null {
      return false;
    }
    if (svc == null && sc != null) || (svc != null && sc == null) {
      return true;
    }
    var trimmedDefaultCacheable := TrimSpace(Lookup(svc.annotations, KeyOfCacheableByDefault));
    if trimmedDefaultCacheable != FormatBool(sc.spec.cacheableByDefault) {
      return true;
    }
    var trimmedCacheableURLsFromService := TrimSpace(Lookup(svc.annotations, KeyOfCacheableUrls));
    var urlsFromService := StripBrackets(trimmedCacheableURLsFromService);
    var sliceOfUrlsFromService := SortStrings(Split(urlsFromService, ','));
    SortURLsList(sc.spec.urls);
    DiffUnfold(svc.annotations, sc.spec);
    sc.spec := sc.spec.(urls := SortURLs(sc.spec.urls));
    hasDiff := Join(sliceOfUrlsFromService, ",") != Join(URLList(sc.spec.urls), ",");
  }

  /** Sorting a nil list leaves it nil, which ranges like the empty list sorted. */
  lemma SortURLsList(urls: Option<seq<string>>)
    ensures URLList(SortURLs(urls)) == SortStrings(URLList(urls))
  {
  }

  // ---------------------------------------------------------------------------
  // Properties of the diff

  /** Two nil objects have no difference; one nil object always has one. */
  lemma DiffNilCases(svc: Option<Annotations>, sc: Option<Spec>)
    ensures svc.None? && sc.None? ==> !HasDiff(svc, sc)
    ensures svc.None? != sc.None? ==> HasDiff(svc, sc)
  {
  }

  /** The `default` check: a trimmed annotation other than "true"/"false" as formatted is a difference. */
  lemma DiffOnDefault(ann: Annotations, spec: Spec)
    ensures !DefaultMatches(ann, spec) ==> HasDiff(Some(ann), Some(spec))
    ensures DefaultMatches(ann, spec) ==>
      (HasDiff(Some(ann), Some(spec)) <==> Join(SortStrings(ServiceURLItems(ann)), ",") != Join(SortStrings(URLList(spec.urls)), ","))
  {
  }

  /** A Service without a `default` annotation (or with a nil map) always differs. */
  lemma DiffMissingDefault(ann: Annotations, spec: Spec)
    requires ann.None? || KeyOfCacheableByDefault !in ann.value
    ensures HasDiff(Some(ann), Some(spec))
  {
    assert Lookup(ann, KeyOfCacheableByDefault) == "";
    assert TrimSpace("") == "";
  }

  /** White space around the `default` annotation is ignored: " true " matches true. */
  lemma DiffTrimsDefault(urls: Option<seq<string>>)
    ensures DefaultMatches(Some(map[KeyOfCacheableByDefault := " true "]), Spec(true, urls))
  {
    assert " true " == " " + "true" + " ";
    TrimSpacePadded(" ", "true", " ");
  }

  /** No item of the list holds a comma. */
  predicate NoCommas(xs: seq<string>) {
    forall i :: 0 <= i < |xs| ==> ',' !in xs[i]
  }

  lemma NoCommasPermutation(xs: seq<string>, ys: seq<string>)
    requires NoCommas(xs) && multiset(xs) == multiset(ys)
    ensures NoCommas(ys)
  {
    forall i | 0 <= i < |ys| ensures ',' !in ys[i] {
      assert ys[i] in multiset(xs);
      var j :| 0 <= j < |xs| && xs[j] == ys[i];
    }
  }

  /** The companion's URL list as Split would produce it: an empty or nil list reads as [""]. */
  function CompanionItems(urls: Option<seq<string>>): seq<string> {
    if URLList(urls) == [] then [""] else URLList(urls)
  }

  /**
   * The URL comparison on lists: sorting and joining two comma-free lists gives the same
   * string exactly when they hold the same items, an empty list standing for [""].
   */
  lemma {:induction false} SortedJoinsAgree(items: seq<string>, list: seq<string>)
    requires |items| >= 1 && NoCommas(items) && NoCommas(list)
    ensures Join(SortStrings(items), ",") == Join(SortStrings(list), ",") <==>
      multiset(items) == multiset(if list == [] then [""] else list)
  {
    var a := SortStrings(items);
    var b := SortStrings(list);
    assert [','] == ",";
    NoCommasPermutation(items, a);
    if list == [] {
      assert b == [];
      if Join(a, ",") == Join(b, ",") {
        JoinInjective(a, [""], ',');
      }
      if multiset(items) == multiset([""]) {
        SortedUnique(a, [""]);
      }
    } else {
      NoCommasPermutation(list, b);
      if Join(a, ",") == Join(b, ",") {
        JoinInjective(a, b, ',');
      }
      if multiset(items) == multiset(list) {
        SortIgnoresOrder(items, list);
      }
    }
  }

  /**
   * For a ServiceCache whose URLs hold no comma, the diff compares the `default` flag and
   * the multisets of URL items: no difference exactly when the flag matches and the
   * annotation's items are a permutation of the list (an empty or nil list standing for [""]).
   */
  lemma DiffAsMultisets(ann: Annotations, spec: Spec)
    requires NoCommas(URLList(spec.urls))
    ensures !HasDiff(Some(ann), Some(spec)) <==>
      DefaultMatches(ann, spec) && multiset(ServiceURLItems(ann)) == multiset(CompanionItems(spec.urls))
  {
    SortedJoinsAgree(ServiceURLItems(ann), URLList(spec.urls));
  }

  /** Permuting the ServiceCache's URLs (or swapping nil for empty) never changes the diff. */
  lemma DiffIgnoresCompanionOrder(ann: Annotations, flag: bool, urls: Option<seq<string>>, urls': Option<seq<string>>)
    requires multiset(URLList(urls)) == multiset(URLList(urls'))
    ensures HasDiff(Some(ann), Some(Spec(flag, urls))) == HasDiff(Some(ann), Some(Spec(flag, urls')))
  {
    SortIgnoresOrder(URLList(urls), URLList(urls'));
  }

  /** Permuting the comma-separated items of the URLs annotation never changes the diff. */
  lemma DiffIgnoresAnnotationOrder(ann: Annotations, ann': Annotations, spec: Spec)
    requires Lookup(ann, KeyOfCacheableByDefault) == Lookup(ann', KeyOfCacheableByDefault)
    requires multiset(ServiceURLItems(ann)) == multiset(ServiceURLItems(ann'))
    ensures HasDiff(Some(ann), Some(spec)) == HasDiff(Some(ann'), Some(spec))
  {
    SortIgnoresOrder(ServiceURLItems(ann), ServiceURLItems(ann'));
    DiffUnfold(ann, spec);
    DiffUnfold(ann', spec);
  }

  /** The diff of two non-nil objects: the flag check, then the sorted, joined URL items. */
  lemma DiffUnfold(ann: Annotations, spec: Spec)
    ensures HasDiff(Some(ann), Some(spec)) ==
      (!DefaultMatches(ann, spec) || Join(SortStrings(ServiceURLItems(ann)), ",") != Join(SortStrings(URLList(spec.urls)), ","))
  {
  }

  /**
   * An absent or empty URLs annotation splits to [""], which joins to "" just as a nil or
   * empty URL list does: only the `default` flag decides.
   */
  lemma DiffEmptyURLs(ann: Annotations, spec: Spec)
    requires Lookup(ann, KeyOfCacheableUrls) == ""
    requires URLList(spec.urls) == []
    ensures HasDiff(Some(ann), Some(spec)) == !DefaultMatches(ann, spec)
  {
    assert TrimSpace("") == "";
    assert StripBrackets("") == "";
    assert ServiceURLItems(ann) == [""];
    assert SortStrings([""]) == [""] by { SortKeepsSorted([""]); }
  }

  /** A URLs annotation written as "[" + j + "]" is read by the diff as the pieces of j. */
  lemma ServiceItemsOfBracketed(ann: Annotations, j: string)
    requires Lookup(ann, KeyOfCacheableUrls) == "[" + j + "]"
    ensures ServiceURLItems(ann) == Split(j, ',')
  {
    var u := "[" + j + "]";
    assert u[0] == '[' && u[|u| - 1] == ']';
    TrimSpaceKeeps(u);
    StripBracketsWrapped(j);
  }

  /**
   * The comparison is on joined strings, not lists: the one-item list ["a,b"] matches a
   * Service whose URLs annotation is "[a,b]", which splits into the two items "a" and "b".
   */
  lemma DiffComparesJoinedStrings(ann: Annotations, spec: Spec)
    requires Lookup(ann, KeyOfCacheableByDefault) == "true"
    requires Lookup(ann, KeyOfCacheableUrls) == "[a,b]"
    requires spec == Spec(true, Some(["a,b"]))
    ensures ServiceURLItems(ann) == ["a", "b"]
    ensures !HasDiff(Some(ann), Some(spec))
  {
    ItemsAB(ann);
    DefaultExact(ann, spec);
    JoinedAB();
    DiffOnItems(ann, spec, ["a", "b"]);
  }

  lemma JoinAB()
    ensures Join(["a", "b"], ",") == "a,b"
  {
  }

  lemma SortedAB()
    ensures SortStrings(["a", "b"]) == ["a", "b"]
  {
    assert LessEq("a", "b");
    SortKeepsSorted(["a", "b"]);
  }

  /** The comma-separated "a,b" splits into "a" and "b". */
  lemma SplitAB()
    ensures Split("a,b", ',') == ["a", "b"]
  {
    JoinAB();
    assert [','] == ",";
    SplitJoin(["a", "b"], ',');
  }

  /** The two items "a" and "b" and the single item "a,b" sort and join to the same string. */
  lemma JoinedAB()
    ensures Join(SortStrings(["a", "b"]), ",") == Join(SortStrings(["a,b"]), ",")
  {
    SortedAB();
    SortKeepsSorted(["a,b"]);
    JoinAB();
  }

  /** The URLs annotation "[a,b]" is read as the two items "a" and "b". */
  lemma ItemsAB(ann: Annotations)
    requires Lookup(ann, KeyOfCacheableUrls) == "[a,b]"
    ensures ServiceURLItems(ann) == ["a", "b"]
  {
    assert "[a,b]" == "[" + "a,b" + "]";
    ServiceItemsOfBracketed(ann, "a,b");
    SplitAB();
  }

  /** A `default` annotation that is exactly the formatted flag, with no white space, matches it. */
  lemma DefaultExact(ann: Annotations, spec: Spec)
    requires Lookup(ann, KeyOfCacheableByDefault) == FormatBool(spec.cacheableByDefault)
    ensures DefaultMatches(ann, spec)
  {
    if spec.cacheableByDefault {
      TrimSpaceKeeps("true");
    } else {
      TrimSpaceKeeps("false");
    }
  }

  /** Once the flag matches, the diff compares the sorted, joined items of both sides. */
  lemma DiffOnItems(ann: Annotations, spec: Spec, items: seq<string>)
    requires DefaultMatches(ann, spec)
    requires ServiceURLItems(ann) == items
    ensures HasDiff(Some(ann), Some(spec)) <==>
      Join(SortStrings(items), ",") != Join(SortStrings(URLList(spec.urls)), ",")
  {
  }

  /** After the diff, the spec keeps its flag and its nil-ness, its URLs are a permutation of the old ones, and sorted once the flag matched. */
  lemma DiffSortsCompanion(ann: Annotations, spec: Spec)
    ensures SpecAfterDiff(ann, spec).cacheableByDefault == spec.cacheableByDefault
    ensures SpecAfterDiff(ann, spec).urls.Some? == spec.urls.Some?
    ensures multiset(URLList(SpecAfterDiff(ann, spec).urls)) == multiset(URLList(spec.urls))
    ensures DefaultMatches(ann, spec) ==> Sorted(URLList(SpecAfterDiff(ann, spec).urls))
  {
  }
}
