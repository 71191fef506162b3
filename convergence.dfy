/**
 * How the two controllers behave together on one (namespace, name) key: the annotation
 * codec round trip, the state in which both passes do nothing, how one pass of either
 * controller, or two passes in either order (with no failing call), reach it, and the
 * inputs on which they do not.
 */
module Convergence {
  import opened GoStrings
  import opened GoSort
  import opened Store
  import opened Utils
  import opened ServiceController
  import opened ServiceCacheController

  /** The Service and the ServiceCache named `k` both exist and the diff finds no difference. */
  predicate InSync(s: State, k: Key) {
    k in s.services && k in s.caches && !HasDiff(Some(s.services[k]), Some(s.caches[k]))
  }

  /** The `default` key carries the service-cache prefix. */
  lemma DefaultKeyIsPrefixed()
    ensures HasPrefix(KeyOfCacheableByDefault, AnnotationPrefix)
  {
    assert KeyOfCacheableByDefault[..|AnnotationPrefix|] == AnnotationPrefix;
  }

  /** A Service that agrees with some ServiceCache carries a `default` annotation, so it is annotated. */
  lemma AgreeingIsAnnotated(ann: Annotations, spec: Spec)
    requires !HasDiff(Some(ann), Some(spec))
    ensures Annotated(ann)
  {
    DiffOnDefault(ann, spec);
    assert |FormatBool(spec.cacheableByDefault)| > 0;
    assert Lookup(ann, KeyOfCacheableByDefault) != "";
    DefaultKeyIsPrefixed();
    assert KeyOfCacheableByDefault in ann.value;
  }

  /** Once in sync, neither controller does anything: no write, no error, the store unchanged. */
  lemma InSyncQuiet(s: State, faults: set<Op>, k: Key)
    requires InSync(s, k)
    requires GetService !in faults && GetServiceCache !in faults
    ensures ServicePass(s, faults, k) == Step(Ok, s, [])
    ensures CachePass(s, faults, k) == Step(Ok, s, [])
  {
    AgreeingIsAnnotated(s.services[k], s.caches[k]);
    AgreeingCacheIsQuiet(s, faults, k);
    AgreeingServiceIsQuiet(s, faults, k);
  }

  // ---------------------------------------------------------------------------
  // The annotation codec

  /**
   * Decoding what the encoder wrote gives back the spec, for a list that holds at least
   * one item and no item with a comma.
   */
  lemma DecodeEncode(spec: Spec, ann: map<string, string>)
    requires spec.urls.Some? && |spec.urls.value| >= 1 && NoCommas(spec.urls.value)
    ensures Decode(Some(EncodeAnnotations(spec, ann))) == spec
  {
    var written := Some(EncodeAnnotations(spec, ann));
    var joined := Join(spec.urls.value, ",");
    assert Lookup(written, KeyOfCacheableUrls) == "[" + joined + "]";
    DecodeURLs(written);
    StripBracketsWrapped(joined);
    assert [','] == ",";
    SplitJoin(spec.urls.value, ',');
  }

  /** An empty list does not survive the round trip: "[]" decodes to the one-item list [""]. */
  lemma EmptyListDecodesToEmptyItem(flag: bool, ann: map<string, string>)
    ensures Decode(Some(EncodeAnnotations(Spec(flag, Some([])), ann))).urls == Some([""])
  {
    var written := Some(EncodeAnnotations(Spec(flag, Some([])), ann));
    assert Lookup(written, KeyOfCacheableUrls) == "[" + "" + "]";
    DecodeURLs(written);
    StripBracketsWrapped("");
  }

  // ---------------------------------------------------------------------------
  // One Service pass

  /** The spec a Service pass compares against: the stored one, or the zero spec it creates. */
  function CompanionBefore(s: State, k: Key): (spec: Spec)
    ensures k !in s.caches ==> spec == EmptySpec
    ensures k in s.caches ==> spec == s.caches[k]
  {
    if k in s.caches then s.caches[k] else EmptySpec
  }

  /**
   * A Service pass with no failing call on an annotated Service leaves a ServiceCache:
   * the decoded annotations when they differed from what it compared against, and that
   * otherwise; the Services are untouched.
   */
  lemma ServicePassOnAnnotated(s: State, k: Key)
    requires k in s.services && Annotated(s.services[k])
    ensures var s1 := ServicePass(s, {}, k).state;
      var spec := CompanionBefore(s, k);
      s1.services == s.services && k in s1.caches
      && s1.caches[k] == (if HasDiff(Some(s.services[k]), Some(spec)) then Decode(s.services[k]) else spec)
  {
  }

  /**
   * After one Service pass with no failing call, the pair is in sync, provided the
   * `default` annotation is exactly "true" or "false" and the URLs annotation carries no
   * white space at its ends.
   */
  lemma ServicePassSyncs(s: State, k: Key)
    requires k in s.services && Annotated(s.services[k])
    requires Lookup(s.services[k], KeyOfCacheableByDefault) == "true" || Lookup(s.services[k], KeyOfCacheableByDefault) == "false"
    requires TrimSpace(Lookup(s.services[k], KeyOfCacheableUrls)) == Lookup(s.services[k], KeyOfCacheableUrls)
    ensures InSync(ServicePass(s, {}, k).state, k)
  {
    ServicePassOnAnnotated(s, k);
    DecodeThenNoDiff(s.services[k]);
  }

  /** Under the same conditions a second Service pass does nothing. */
  lemma ServicePassIdempotent(s: State, k: Key)
    requires k in s.services && Annotated(s.services[k])
    requires Lookup(s.services[k], KeyOfCacheableByDefault) == "true" || Lookup(s.services[k], KeyOfCacheableByDefault) == "false"
    requires TrimSpace(Lookup(s.services[k], KeyOfCacheableUrls)) == Lookup(s.services[k], KeyOfCacheableUrls)
    ensures var s1 := ServicePass(s, {}, k).state;
      ServicePass(s1, {}, k) == Step(Ok, s1, [])
  {
    ServicePassSyncs(s, k);
    InSyncQuiet(ServicePass(s, {}, k).state, {}, k);
  }

  /** Two hops, Service first: the ServiceCache pass that follows does nothing. */
  lemma ServiceThenCacheQuiet(s: State, k: Key)
    requires k in s.services && Annotated(s.services[k])
    requires Lookup(s.services[k], KeyOfCacheableByDefault) == "true" || Lookup(s.services[k], KeyOfCacheableByDefault) == "false"
    requires TrimSpace(Lookup(s.services[k], KeyOfCacheableUrls)) == Lookup(s.services[k], KeyOfCacheableUrls)
    ensures var s1 := ServicePass(s, {}, k).state;
      CachePass(s1, {}, k) == Step(Ok, s1, [])
  {
    ServicePassSyncs(s, k);
    InSyncQuiet(ServicePass(s, {}, k).state, {}, k);
  }

  /**
   * Two hops, Service first, for every annotated Service: after a Service pass and then a
   * ServiceCache pass, both with no failing call, the pair is in sync (and by InSyncQuiet
   * stays so). Where the Service's own annotations disagree with their decoding, the
   * ServiceCache pass rewrites the Service from the decoded spec.
   */
  lemma ServiceThenCacheSyncs(s: State, k: Key)
    requires k in s.services && Annotated(s.services[k])
    ensures InSync(CachePass(ServicePass(s, {}, k).state, {}, k).state, k)
  {
    var ann := s.services[k];
    var s1 := ServicePass(s, {}, k).state;
    ServicePassOnAnnotated(s, k);
    if HasDiff(Some(ann), Some(CompanionBefore(s, k))) {
      assert s1.caches[k] == Decode(ann);
      CachePassSyncs(s1, k);
    } else {
      AgreeingServiceIsQuiet(s1, {}, k);
    }
  }

  // ---------------------------------------------------------------------------
  // One ServiceCache pass

  /**
   * A Service rewritten from a ServiceCache agrees with it, although what was written is
   * the list as the diff sorted it: the URLs hold no comma, and a nil list meets no old
   * URLs annotation.
   */
  lemma SyncedServiceAgrees(spec: Spec, ann: map<string, string>)
    requires NoCommas(URLList(spec.urls))
    requires spec.urls.None? ==> KeyOfCacheableUrls !in ann
    ensures !HasDiff(Some(Some(EncodeAnnotations(SpecAfterDiff(Some(ann), spec), ann))), Some(spec))
  {
    var sorted := SpecAfterDiff(Some(ann), spec);
    DiffSortsCompanion(Some(ann), spec);
    NoCommasPermutation(URLList(spec.urls), URLList(sorted.urls));
    EncodeThenNoDiff(sorted, ann);
    var written := Some(EncodeAnnotations(sorted, ann));
    DiffIgnoresCompanionOrder(written, spec.cacheableByDefault, sorted.urls, spec.urls);
    assert sorted == Spec(spec.cacheableByDefault, sorted.urls);
  }

  /**
   * After one ServiceCache pass with no failing call, the pair is in sync, for a Service
   * with a non-nil annotation map and a ServiceCache whose URLs hold no comma (and, if
   * nil, meet no URLs annotation).
   */
  lemma CachePassSyncs(s: State, k: Key)
    requires k in s.caches && k in s.services && s.services[k].Some?
    requires NoCommas(URLList(s.caches[k].urls))
    requires s.caches[k].urls.None? ==> KeyOfCacheableUrls !in s.services[k].value
    ensures InSync(CachePass(s, {}, k).state, k)
  {
    if HasDiff(Some(s.services[k]), Some(s.caches[k])) {
      DisagreeingServiceIsUpdated(s, {}, k);
      SyncedServiceAgrees(s.caches[k], s.services[k].value);
    } else {
      AgreeingServiceIsQuiet(s, {}, k);
    }
  }

  /** Under the same conditions a second ServiceCache pass does nothing. */
  lemma CachePassIdempotent(s: State, k: Key)
    requires k in s.caches && k in s.services && s.services[k].Some?
    requires NoCommas(URLList(s.caches[k].urls))
    requires s.caches[k].urls.None? ==> KeyOfCacheableUrls !in s.services[k].value
    ensures var s1 := CachePass(s, {}, k).state;
      CachePass(s1, {}, k) == Step(Ok, s1, [])
  {
    CachePassSyncs(s, k);
    InSyncQuiet(CachePass(s, {}, k).state, {}, k);
  }

  /** Two hops, ServiceCache first: the Service pass that follows does nothing. */
  lemma CacheThenServiceQuiet(s: State, k: Key)
    requires k in s.caches && k in s.services && s.services[k].Some?
    requires NoCommas(URLList(s.caches[k].urls))
    requires s.caches[k].urls.None? ==> KeyOfCacheableUrls !in s.services[k].value
    ensures var s1 := CachePass(s, {}, k).state;
      ServicePass(s1, {}, k) == Step(Ok, s1, [])
  {
    CachePassSyncs(s, k);
    InSyncQuiet(CachePass(s, {}, k).state, {}, k);
  }

  /**
   * The annotations a ServiceCache pass writes are read back exactly by the Service
   * controller: `default` is the formatted flag and `URLs` is bracketed, or, for a nil
   * list, the old value, which then must carry no white space at its ends.
   */
  lemma EncodedReadsBack(spec: Spec, ann: map<string, string>)
    requires spec.urls.None? ==> TrimSpace(Lookup(Some(ann), KeyOfCacheableUrls)) == Lookup(Some(ann), KeyOfCacheableUrls)
    ensures var written := Some(EncodeAnnotations(spec, ann));
      Annotated(written) && !HasDiff(Some(written), Some(Decode(written)))
  {
    var written := Some(EncodeAnnotations(spec, ann));
    DefaultKeyIsPrefixed();
    assert KeyOfCacheableByDefault in written.value;
    if spec.urls.Some? {
      var u := "[" + Join(spec.urls.value, ",") + "]";
      assert u[0] == '[' && u[|u| - 1] == ']';
      TrimSpaceKeeps(u);
    } else {
      assert Lookup(written, KeyOfCacheableUrls) == Lookup(Some(ann), KeyOfCacheableUrls);
    }
    DecodeThenNoDiff(written);
  }

  /**
   * Two hops, ServiceCache first, for every ServiceCache next to a Service with a non-nil
   * annotation map: after a ServiceCache pass and then a Service pass, both with no
   * failing call, the pair is in sync, unless the list is nil and the URLs annotation it
   * leaves in place is padded with white space (CacheThenServicePaddedURLs).
   */
  lemma CacheThenServiceSyncs(s: State, k: Key)
    requires k in s.caches && k in s.services && s.services[k].Some?
    requires s.caches[k].urls.None? ==> TrimSpace(Lookup(s.services[k], KeyOfCacheableUrls)) == Lookup(s.services[k], KeyOfCacheableUrls)
    ensures InSync(ServicePass(CachePass(s, {}, k).state, {}, k).state, k)
  {
    var ann := s.services[k].value;
    if HasDiff(Some(s.services[k]), Some(s.caches[k])) {
      DisagreeingServiceIsUpdated(s, {}, k);
      var s1 := CachePass(s, {}, k).state;
      EncodedReadsBack(SpecAfterDiff(Some(ann), s.caches[k]), ann);
      ServicePassOnAnnotated(s1, k);
    } else {
      AgreeingServiceIsQuiet(s, {}, k);
      InSyncQuiet(s, {}, k);
    }
  }

  // ---------------------------------------------------------------------------
  // Inputs that never settle

  /**
   * A `default` annotation of " true " is read as false by the decoder (which does not
   * trim) but as "true" by the diff (which does), so the decoded spec always differs.
   */
  lemma PaddedDefaultNeverAgrees(ann: Annotations)
    requires Lookup(ann, KeyOfCacheableByDefault) == " true "
    ensures TrimSpace(Lookup(ann, KeyOfCacheableByDefault)) == "true"
    ensures !Decode(ann).cacheableByDefault
    ensures HasDiff(Some(ann), Some(Decode(ann)))
  {
    assert " true " == " " + "true" + " ";
    TrimSpacePadded(" ", "true", " ");
    DiffOnDefault(ann, Decode(ann));
  }

  /**
   * Hence every Service pass on such a Service rewrites its ServiceCache with the same
   * spec: the store does not change, yet an update is issued each time.
   */
  lemma PaddedDefaultUpdatesEveryPass(s: State, k: Key)
    requires k in s.services && Lookup(s.services[k], KeyOfCacheableByDefault) == " true "
    requires k in s.caches && s.caches[k] == Decode(s.services[k])
    ensures ServicePass(s, {}, k).result == Ok
    ensures ServicePass(s, {}, k).state == s
    ensures ServicePass(s, {}, k).writes == [Write(UpdateServiceCache, k)]
  {
    PaddedDefaultNeverAgrees(s.services[k]);
    DefaultMakesAnnotated(s.services[k]);
    DisagreeingCacheIsUpdated(s, {}, k);
    assert s.caches[k := Decode(s.services[k])] == s.caches;
  }

  /**
   * What the two hops make of a `default` of " true ": the Service pass stores false, and
   * the ServiceCache pass that follows writes "false" into the Service, so the pair agrees
   * on caching being off by default.
   */
  lemma PaddedDefaultBecomesFalse(s: State, k: Key)
    requires k in s.services && Lookup(s.services[k], KeyOfCacheableByDefault) == " true "
    requires k !in s.caches || s.caches[k] == Decode(s.services[k])
    ensures var s2 := CachePass(ServicePass(s, {}, k).state, {}, k).state;
      InSync(s2, k) && Lookup(s2.services[k], KeyOfCacheableByDefault) == "false"
  {
    var ann := s.services[k];
    PaddedDefaultNeverAgrees(ann);
    DefaultKeyIsPrefixed();
    assert Annotated(ann);
    DiffOnDefault(ann, EmptySpec);
    ServicePassOnAnnotated(s, k);
    var s1 := ServicePass(s, {}, k).state;
    assert s1.caches[k] == Decode(ann);
    DisagreeingServiceIsUpdated(s1, {}, k);
    DiffSortsCompanion(ann, Decode(ann));
    ServiceThenCacheSyncs(s, k);
  }

  /** The URLs annotation " [a] ": the diff trims it and reads the item "a"; the decoder does not, and reads " [a] ". */
  lemma PaddedURLsReadTwoWays(ann: Annotations)
    requires Lookup(ann, KeyOfCacheableUrls) == " [a] "
    ensures ServiceURLItems(ann) == ["a"]
    ensures Decode(ann).urls == Some([" [a] "])
  {
    PaddedURLsTrimmed(ann);
    PaddedURLsDecoded(ann);
  }

  /** The decoder keeps " [a] " as it is and reads it as one item. */
  lemma PaddedURLsDecoded(ann: Annotations)
    requires Lookup(ann, KeyOfCacheableUrls) == " [a] "
    ensures Decode(ann).urls == Some([" [a] "])
  {
    PaddedURLsKeepBrackets();
    DecodeURLs(ann);
    SplitWhole(" [a] ", ',');
  }

  /** Without trimming, " [a] " neither starts with "[" nor ends with "]", so no bracket comes off. */
  lemma PaddedURLsKeepBrackets()
    ensures StripBrackets(" [a] ") == " [a] "
  {
    var u := " [a] ";
    assert u[0] == ' ' && u[|u| - 1] == ' ';
    assert u[..1] != "[";
    assert TrimPrefix(u, "[") == u;
    assert u[|u| - 1..] != "]";
    assert TrimSuffix(u, "]") == u;
  }

  /** The diff trims " [a] " to "[a]" and reads the one item "a". */
  lemma PaddedURLsTrimmed(ann: Annotations)
    requires Lookup(ann, KeyOfCacheableUrls) == " [a] "
    ensures ServiceURLItems(ann) == ["a"]
  {
    assert " [a] " == " " + "[a]" + " ";
    TrimSpacePadded(" ", "[a]", " ");
    assert "[a]" == "[" + "a" + "]";
    StripBracketsWrapped("a");
    SplitWhole("a", ',');
  }

  /** One item sorts to itself. */
  lemma SortOne(x: string)
    ensures SortStrings([x]) == [x]
  {
    SortKeepsSorted([x]);
  }

  /**
   * With an exact `default` and `URLs: " [a] "`, the decoded spec holds the item " [a] ",
   * which the diff never matches with the item "a" it reads; nor does it match a nil
   * list. Sorting the one-item list leaves the decoded spec as it is.
   */
  lemma PaddedURLsNeverAgree(ann: Annotations, b: bool)
    requires Lookup(ann, KeyOfCacheableByDefault) == FormatBool(b)
    requires Lookup(ann, KeyOfCacheableUrls) == " [a] "
    ensures Decode(ann) == Spec(b, Some([" [a] "]))
    ensures HasDiff(Some(ann), Some(Decode(ann)))
    ensures HasDiff(Some(ann), Some(Spec(b, None)))
    ensures SpecAfterDiff(ann, Decode(ann)) == Decode(ann)
  {
    PaddedURLsReadTwoWays(ann);
    FormatBoolReadsBack(b);
    var dec := Spec(b, Some([" [a] "]));
    assert Decode(ann) == dec;
    PaddedJoins();
    DefaultExact(ann, dec);
    DiffOnDefault(ann, dec);
    DefaultExact(ann, Spec(b, None));
    DiffOnDefault(ann, Spec(b, None));
  }

  /** The sorted joins the diff compares for " [a] ": "a" on the Service's side, " [a] " or "" on the ServiceCache's. */
  lemma PaddedJoins()
    ensures Join(SortStrings(["a"]), ",") == "a"
    ensures Join(SortStrings(URLList(Some([" [a] "]))), ",") == " [a] "
    ensures Join(SortStrings(URLList(None)), ",") == ""
    ensures "a" != " [a] " && "a" != ""
  {
    SortOne("a");
    SortOne(" [a] ");
  }

  /** A `default` annotation that is not "" makes the Service annotated. */
  lemma DefaultMakesAnnotated(ann: Annotations)
    requires Lookup(ann, KeyOfCacheableByDefault) != ""
    ensures Annotated(ann)
  {
    DefaultKeyIsPrefixed();
    assert KeyOfCacheableByDefault in ann.value;
  }

  /**
   * Two hops, ServiceCache first, need not settle: a Service annotated `default: "false"`
   * and `URLs: " [a] "` (whatever else it carries) next to a ServiceCache (false, nil). The ServiceCache pass writes
   * the same annotations back (a nil list leaves URLs alone), the Service pass then
   * stores the untrimmed item " [a] ", and the diff, which trims, still reads "a".
   */
  lemma CacheThenServicePaddedURLs(s: State, k: Key)
    requires k in s.services && Lookup(s.services[k], KeyOfCacheableByDefault) == "false"
    requires Lookup(s.services[k], KeyOfCacheableUrls) == " [a] "
    requires k in s.caches && s.caches[k] == Spec(false, None)
    ensures var s2 := ServicePass(CachePass(s, {}, k).state, {}, k).state;
      s2.services == s.services && s2.caches[k] == Spec(false, Some([" [a] "])) && !InSync(s2, k)
  {
    var ann := s.services[k];
    PaddedURLsNeverAgree(ann, false);
    NilListCachePassRewritesSame(s, k);
    DefaultMakesAnnotated(ann);
    ServicePassOnAnnotated(s, k);
  }

  /**
   * A ServiceCache pass that finds a difference, for a nil list and a Service whose
   * `default` is already the formatted flag, writes the Service's annotations back
   * unchanged: the store is as it was.
   */
  lemma NilListCachePassRewritesSame(s: State, k: Key)
    requires k in s.services && k in s.caches && s.caches[k].urls.None?
    requires Lookup(s.services[k], KeyOfCacheableByDefault) == FormatBool(s.caches[k].cacheableByDefault)
    requires HasDiff(Some(s.services[k]), Some(s.caches[k]))
    ensures CachePass(s, {}, k).state == s
  {
    var ann := s.services[k].value;
    assert KeyOfCacheableByDefault in ann;
    assert SpecAfterDiff(Some(ann), s.caches[k]) == s.caches[k];
    assert EncodeAnnotations(s.caches[k], ann) == ann;
    DisagreeingServiceIsUpdated(s, {}, k);
  }

  /**
   * Two hops, Service first, on `default: "true"` and `URLs: " [a] "`: the Service pass
   * stores the item " [a] " untrimmed, and the ServiceCache pass writes it back in
   * brackets, so the pair agrees on the URL " [a] " and the user's URL "a" is gone.
   */
  lemma PaddedURLsWrappedAgain(s: State, k: Key)
    requires k in s.services && Lookup(s.services[k], KeyOfCacheableByDefault) == "true"
    requires Lookup(s.services[k], KeyOfCacheableUrls) == " [a] "
    requires k !in s.caches || s.caches[k] == Decode(s.services[k])
    ensures var s2 := CachePass(ServicePass(s, {}, k).state, {}, k).state;
      InSync(s2, k) && s2.caches[k] == Spec(true, Some([" [a] "]))
      && Lookup(s2.services[k], KeyOfCacheableUrls) == "[ [a] ]"
  {
    var ann := s.services[k];
    PaddedURLsNeverAgree(ann, true);
    DefaultMakesAnnotated(ann);
    DiffOnDefault(ann, EmptySpec);
    ServicePassOnAnnotated(s, k);
    var s1 := ServicePass(s, {}, k).state;
    assert s1.caches[k] == Decode(ann);
    DecodedPaddedURLsWritten(s1, k);
    ServiceThenCacheSyncs(s, k);
  }

  /** The ServiceCache pass on the decoded " [a] " writes the URLs annotation "[ [a] ]". */
  lemma DecodedPaddedURLsWritten(s: State, k: Key)
    requires k in s.services && Lookup(s.services[k], KeyOfCacheableByDefault) == "true"
    requires Lookup(s.services[k], KeyOfCacheableUrls) == " [a] "
    requires k in s.caches && s.caches[k] == Decode(s.services[k])
    ensures var s1 := CachePass(s, {}, k).state;
      s1.caches == s.caches && k in s1.services && Lookup(s1.services[k], KeyOfCacheableUrls) == "[ [a] ]"
  {
    var ann := s.services[k];
    PaddedURLsNeverAgree(ann, true);
    assert ann.Some?;
    DisagreeingServiceIsUpdated(s, {}, k);
    PaddedItemEncoded(ann.value);
  }

  /** The one item " [a] " is written as the URLs annotation "[ [a] ]". */
  lemma PaddedItemEncoded(m: map<string, string>)
    ensures var written := Some(EncodeAnnotations(Spec(true, Some([" [a] "])), m));
      Lookup(written, KeyOfCacheableUrls) == "[ [a] ]"
  {
    assert Join([" [a] "], ",") == " [a] ";
    assert "[" + " [a] " + "]" == "[ [a] ]";
  }

  /**
   * A nil URL list against a Service whose URL items do not join to "": every
   * ServiceCache pass, the first and the next, rewrites the Service.
   */
  lemma NilURLsUpdateEveryPass(s: State, k: Key)
    requires k in s.caches && k in s.services && s.services[k].Some?
    requires s.caches[k].urls.None?
    requires Join(SortStrings(ServiceURLItems(s.services[k])), ",") != ""
    ensures CachePass(s, {}, k).writes == [Write(UpdateService, k)]
    ensures var s1 := CachePass(s, {}, k).state;
      CachePass(s1, {}, k).writes == [Write(UpdateService, k)]
  {
    var ann := s.services[k].value;
    NilURLsKeepDiffering(s.caches[k], ann);
    DisagreeingServiceIsUpdated(s, {}, k);
    var s1 := CachePass(s, {}, k).state;
    assert s1.services[k] == Some(EncodeAnnotations(SpecAfterDiff(Some(ann), s.caches[k]), ann));
    DisagreeingServiceIsUpdated(s1, {}, k);
  }

  // ---------------------------------------------------------------------------
  // Scenarios

  /** "x,y" splits into "x" and "y". */
  lemma SplitXY()
    ensures Split("x,y", ',') == ["x", "y"]
  {
    assert Join(["x", "y"], ",") == "x,y";
    assert [','] == ",";
    SplitJoin(["x", "y"], ',');
  }

  /** The URLs annotation "[x,y]" decodes to the list ["x", "y"]. */
  lemma DecodeXY(ann: Annotations)
    requires Lookup(ann, KeyOfCacheableUrls) == "[x,y]"
    ensures Decode(ann).urls == Some(["x", "y"])
  {
    DecodeURLs(ann);
    assert "[x,y]" == "[" + "x,y" + "]";
    StripBracketsWrapped("x,y");
    SplitXY();
  }

  /**
   * A Service annotated with default "true" and URLs "[x,y]" and no ServiceCache: the
   * Service pass creates the ServiceCache with true and ["x", "y"].
   */
  lemma CreatesFromAnnotations(s: State, k: Key)
    requires k in s.services && k !in s.caches
    requires Lookup(s.services[k], KeyOfCacheableByDefault) == "true"
    requires Lookup(s.services[k], KeyOfCacheableUrls) == "[x,y]"
    ensures var step := ServicePass(s, {}, k);
      step.result == Ok
      && step.writes == [Write(CreateServiceCache, k), Write(UpdateServiceCache, k)]
      && step.state.caches == s.caches[k := Spec(true, Some(["x", "y"]))]
  {
    AnnotatedXY(s.services[k]);
    CreateThenUpdate(s, k);
  }

  /**
   * With no failing call, a Service pass on an annotated Service with no ServiceCache that
   * differs from the zero spec creates the ServiceCache and then updates it to the decoded
   * annotations.
   */
  lemma CreateThenUpdate(s: State, k: Key)
    requires k in s.services && Annotated(s.services[k]) && k !in s.caches
    requires HasDiff(Some(s.services[k]), Some(EmptySpec))
    ensures ServicePass(s, {}, k).result == Ok
    ensures ServicePass(s, {}, k).state == State(s.services, s.caches[k := Decode(s.services[k])])
    ensures ServicePass(s, {}, k).writes == [Write(CreateServiceCache, k), Write(UpdateServiceCache, k)]
  {
    var ann := s.services[k];
    var created := State(s.services, s.caches[k := EmptySpec]);
    var synced := State(s.services, s.caches[k := Decode(ann)]);
    CreatedThenSynced(s, k);
    assert ServicePass(s, {}, k) == SyncFromService(created, {}, k, ann, true, [Write(CreateServiceCache, k)]);
    SyncUpdates(created, k, ann, [Write(CreateServiceCache, k)]);
    assert created.(caches := created.caches[k := Decode(ann)]) == synced;
    assert [Write(CreateServiceCache, k)] + [Write(UpdateServiceCache, k)] == [Write(CreateServiceCache, k), Write(UpdateServiceCache, k)];
  }

  /** The get-or-create half of that pass: the zero spec is created and then compared. */
  lemma CreatedThenSynced(s: State, k: Key)
    requires k in s.services && Annotated(s.services[k]) && k !in s.caches
    ensures var ann := s.services[k];
      ServicePass(s, {}, k) ==
      SyncFromService(State(s.services, s.caches[k := EmptySpec]), {}, k, ann, HasDiff(Some(ann), Some(EmptySpec)), [Write(CreateServiceCache, k)])
  {
    var found := FindOrCreate(s, {}, k);
    assert found == Found(None, State(s.services, s.caches[k := EmptySpec]), EmptySpec, [Write(CreateServiceCache, k)]);
  }

  /** The sync half: a difference, with no failing call, is an update to the decoded annotations. */
  lemma SyncUpdates(s: State, k: Key, ann: Annotations, writes: seq<Write>)
    requires k in s.caches
    ensures SyncFromService(s, {}, k, ann, true, writes) ==
      Step(Ok, s.(caches := s.caches[k := Decode(ann)]), writes + [Write(UpdateServiceCache, k)])
  {
  }

  /** A Service annotated `default: "true"` and `URLs: "[x,y]"` differs from the zero spec and decodes to (true, ["x", "y"]). */
  lemma AnnotatedXY(ann: Annotations)
    requires Lookup(ann, KeyOfCacheableByDefault) == "true"
    requires Lookup(ann, KeyOfCacheableUrls) == "[x,y]"
    ensures Annotated(ann) && HasDiff(Some(ann), Some(EmptySpec))
    ensures Decode(ann) == Spec(true, Some(["x", "y"]))
  {
    DefaultMakesAnnotated(ann);
    assert !DefaultMatches(ann, EmptySpec);
    DiffOnDefault(ann, EmptySpec);
    DecodeXY(ann);
  }

  /** A ServiceCache holding ["y", "x"] agrees with a Service annotated "[x,y]": no update. */
  lemma PermutedListAgrees(ann: Annotations)
    requires Lookup(ann, KeyOfCacheableByDefault) == "true"
    requires Lookup(ann, KeyOfCacheableUrls) == "[x,y]"
    ensures !HasDiff(Some(ann), Some(Spec(true, Some(["y", "x"]))))
  {
    DefaultExact(ann, Spec(true, Some(["x", "y"])));
    ItemsXY(ann);
    DiffOnItems(ann, Spec(true, Some(["x", "y"])), ["x", "y"]);
    SwapXY();
    DiffIgnoresCompanionOrder(ann, true, Some(["x", "y"]), Some(["y", "x"]));
  }

  /** The URLs annotation "[x,y]" is read by the diff as the two items "x" and "y". */
  lemma ItemsXY(ann: Annotations)
    requires Lookup(ann, KeyOfCacheableUrls) == "[x,y]"
    ensures ServiceURLItems(ann) == ["x", "y"]
  {
    assert "[x,y]" == "[" + "x,y" + "]";
    ServiceItemsOfBracketed(ann, "x,y");
    SplitXY();
  }

  lemma SwapXY()
    ensures multiset(URLList(Some(["x", "y"]))) == multiset(URLList(Some(["y", "x"])))
  {
    assert multiset(["x", "y"]) == multiset(["y", "x"]);
  }
}
