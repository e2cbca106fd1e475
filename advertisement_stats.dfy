/**
 * The interaction counters kept for an advertisement (domain/model/AdvertisementStats.java).
 * The counters are Java `Long`s that start at 0; they are modelled as unbounded naturals.
 */
module Stats {
  import opened Wrappers
  import opened Sequences

  type Timestamp = int

  /** The interactions that have their own increment method. */
  datatype Interaction = View | CompleteView | Click | Conversion | Skip | Share | Like | Dislike

  /** The eight counters, as one value. */
  datatype Counters = Counters(view: nat, click: nat, completeView: nat, conversion: nat,
                               skip: nat, share: nat, like: nat, dislike: nat)

  /** The counters of a freshly built statistics object: all 0. */
  const ZERO := Counters(0, 0, 0, 0, 0, 0, 0, 0)

  /** A complete view is also a view, and a conversion is also a click. */
  predicate Consistent(c: Counters) {
    c.completeView <= c.view && c.conversion <= c.click
  }

  /** The counters after one increment method: its own counter rises by 1, and the implied one with it. */
  function After(c: Counters, e: Interaction): Counters
  {
    match e
    case View => c.(view := c.view + 1)
    case CompleteView => c.(completeView := c.completeView + 1, view := c.view + 1)
    case Click => c.(click := c.click + 1)
    case Conversion => c.(conversion := c.conversion + 1, click := c.click + 1)
    case Skip => c.(skip := c.skip + 1)
    case Share => c.(share := c.share + 1)
    case Like => c.(like := c.like + 1)
    case Dislike => c.(dislike := c.dislike + 1)
  }

  /** Every increment keeps the counters consistent. */
  lemma AfterKeepsConsistent(c: Counters, e: Interaction)
    requires Consistent(c)
    ensures Consistent(After(c, e))
  {
  }

  /** The counters after a sequence of increments, from the defaults. */
  function Tally(events: seq<Interaction>): Counters {
    if events == [] then ZERO else After(Tally(events[..|events| - 1]), events[|events| - 1])
  }

  /**
   * Each counter counts its own increments, the view counter also the complete views and
   * the click counter also the conversions; so, from the defaults, the counters are always
   * consistent.
   */
  lemma {:induction false} TallyCounts(events: seq<Interaction>)
    ensures var c := Tally(events);
      c.view == Occurrences(events, View) + Occurrences(events, CompleteView)
      && c.click == Occurrences(events, Click) + Occurrences(events, Conversion)
      && c.completeView == Occurrences(events, CompleteView)
      && c.conversion == Occurrences(events, Conversion)
      && c.skip == Occurrences(events, Skip) && c.share == Occurrences(events, Share)
      && c.like == Occurrences(events, Like) && c.dislike == Occurrences(events, Dislike)
    ensures Consistent(Tally(events))
  {
    if events != [] {
      TallyCounts(events[..|events| - 1]);
    }
  }

  /** A per-key view map after one `incrementViewsBy…` call: a null key changes nothing. */
  function Bumped(m: map<string, nat>, key: Option<string>): (r: map<string, nat>)
    ensures key.None? ==> r == m
    ensures key.Some? ==> r.Keys == m.Keys + {key.value}
    ensures key.Some? ==> r[key.value] == (if key.value in m then m[key.value] else 0) + 1
    ensures key.Some? ==> forall k :: k in m && k != key.value ==> r[k] == m[k]
  {
    if key.None? then m else m[key.value := (if key.value in m then m[key.value] else 0) + 1]
  }

  /** A per-key view map built by a sequence of calls, from an empty map. */
  function ViewsBy(keys: seq<Option<string>>): map<string, nat> {
    if keys == [] then map[] else Bumped(ViewsBy(keys[..|keys| - 1]), keys[|keys| - 1])
  }

  /** The map holds exactly the non-null keys seen, each with the number of calls that named it. */
  lemma {:induction false} ViewsByCounts(keys: seq<Option<string>>)
    ensures forall k :: k in ViewsBy(keys) <==> Some(k) in keys
    ensures forall k :: k in ViewsBy(keys) ==> ViewsBy(keys)[k] == Occurrences(keys, Some(k))
  {
    if keys != [] {
      var prefix := keys[..|keys| - 1];
      var last := keys[|keys| - 1];
      ViewsByCounts(prefix);
      assert keys == prefix + [last];
      forall k | k in ViewsBy(keys) ensures ViewsBy(keys)[k] == Occurrences(keys, Some(k)) {
        OccursIffPresent(prefix, Some(k));
      }
    }
  }

  /** An element occurs a positive number of times exactly when it is present. */
  lemma {:induction false} OccursIffPresent<T>(s: seq<T>, x: T)
    ensures Occurrences(s, x) > 0 <==> x in s
  {
    if s != [] {
      OccursIffPresent(s[..|s| - 1], x);
      assert s == s[..|s| - 1] + [s[|s| - 1]];
    }
  }

  /** The statistics object. */
  class AdvertisementStats {
    var viewCount: nat
    var clickCount: nat
    var completeViewCount: nat
    var conversionCount: nat
    var skipCount: nat
    var shareCount: nat
    var likeCount: nat
    var dislikeCount: nat
    var viewsByDevice: map<string, nat>
    var viewsByBrowser: map<string, nat>
    var viewsByCountry: map<string, nat>
    var lastUpdated: Option<Timestamp>

    /** The eight counters as a value. */
    function Snapshot(): Counters
      reads this
    {
      Counters(viewCount, clickCount, completeViewCount, conversionCount, skipCount, shareCount, likeCount, dislikeCount)
    }

    /** The no-argument constructor and the builder's defaults. */
    constructor ()
      ensures Snapshot() == ZERO && viewsByDevice == map[] && viewsByBrowser == map[] && viewsByCountry == map[]
      ensures lastUpdated.None?
      ensures Consistent(Snapshot())
    {
      viewCount, clickCount, completeViewCount, conversionCount := 0, 0, 0, 0;
      skipCount, shareCount, likeCount, dislikeCount := 0, 0, 0, 0;
      viewsByDevice, viewsByBrowser, viewsByCountry := map[], map[], map[];
      lastUpdated := None;
    }

    /** `incrementViewCount` at instant `now`. */
    method IncrementViewCount(now: Timestamp)
      modifies this
      ensures Snapshot() == After(old(Snapshot()), View) && lastUpdated == Some(now)
      ensures viewsByDevice == old(viewsByDevice) && viewsByBrowser == old(viewsByBrowser) && viewsByCountry == old(viewsByCountry)
      ensures old(Consistent(Snapshot())) ==> Consistent(Snapshot())
    {
      viewCount := viewCount + 1;
      lastUpdated := Some(now);
    }

    /** `incrementCompleteViewCount`: a complete view is also a view. */
    method IncrementCompleteViewCount(now: Timestamp)
      modifies this
      ensures Snapshot() == After(old(Snapshot()), CompleteView) && lastUpdated == Some(now)
      ensures viewsByDevice == old(viewsByDevice) && viewsByBrowser == old(viewsByBrowser) && viewsByCountry == old(viewsByCountry)
      ensures old(Consistent(Snapshot())) ==> Consistent(Snapshot())
    {
      completeViewCount := completeViewCount + 1;
      viewCount := viewCount + 1;
      lastUpdated := Some(now);
    }

    /** `incrementClickCount`. */
    method IncrementClickCount(now: Timestamp)
      modifies this
      ensures Snapshot() == After(old(Snapshot()), Click) && lastUpdated == Some(now)
      ensures viewsByDevice == old(viewsByDevice) && viewsByBrowser == old(viewsByBrowser) && viewsByCountry == old(viewsByCountry)
      ensures old(Consistent(Snapshot())) ==> Consistent(Snapshot())
    {
      clickCount := clickCount + 1;
      lastUpdated := Some(now);
    }

    /** `incrementConversionCount`: a conversion is also a click. */
    method IncrementConversionCount(now: Timestamp)
      modifies this
      ensures Snapshot() == After(old(Snapshot()), Conversion) && lastUpdated == Some(now)
      ensures viewsByDevice == old(viewsByDevice) && viewsByBrowser == old(viewsByBrowser) && viewsByCountry == old(viewsByCountry)
      ensures old(Consistent(Snapshot())) ==> Consistent(Snapshot())
    {
      conversionCount := conversionCount + 1;
      clickCount := clickCount + 1;
      lastUpdated := Some(now);
    }

    /** `incrementSkipCount`. */
    method IncrementSkipCount(now: Timestamp)
      modifies this
      ensures Snapshot() == After(old(Snapshot()), Skip) && lastUpdated == Some(now)
      ensures viewsByDevice == old(viewsByDevice) && viewsByBrowser == old(viewsByBrowser) && viewsByCountry == old(viewsByCountry)
    {
      skipCount := skipCount + 1;
      lastUpdated := Some(now);
    }

    /** `incrementShareCount`. */
    method IncrementShareCount(now: Timestamp)
      modifies this
      ensures Snapshot() == After(old(Snapshot()), Share) && lastUpdated == Some(now)
      ensures viewsByDevice == old(viewsByDevice) && viewsByBrowser == old(viewsByBrowser) && viewsByCountry == old(viewsByCountry)
    {
      shareCount := shareCount + 1;
      lastUpdated := Some(now);
    }

    /** `incrementLikeCount`. */
    method IncrementLikeCount(now: Timestamp)
      modifies this
      ensures Snapshot() == After(old(Snapshot()), Like) && lastUpdated == Some(now)
      ensures viewsByDevice == old(viewsByDevice) && viewsByBrowser == old(viewsByBrowser) && viewsByCountry == old(viewsByCountry)
    {
      likeCount := likeCount + 1;
      lastUpdated := Some(now);
    }

    /** `incrementDislikeCount`. */
    method IncrementDislikeCount(now: Timestamp)
      modifies this
      ensures Snapshot() == After(old(Snapshot()), Dislike) && lastUpdated == Some(now)
      ensures viewsByDevice == old(viewsByDevice) && viewsByBrowser == old(viewsByBrowser) && viewsByCountry == old(viewsByCountry)
    {
      dislikeCount := dislikeCount + 1;
      lastUpdated := Some(now);
    }

    /** `incrementViewsByDevice`: only the device map changes, and the last-update time does not. */
    method IncrementViewsByDevice(deviceType: Option<string>)
      modifies this
      ensures viewsByDevice == Bumped(old(viewsByDevice), deviceType)
      ensures Snapshot() == old(Snapshot()) && lastUpdated == old(lastUpdated)
      ensures viewsByBrowser == old(viewsByBrowser) && viewsByCountry == old(viewsByCountry)
    {
      if deviceType.Some? {
        var k := deviceType.value;
        viewsByDevice := viewsByDevice[k := (if k in viewsByDevice then viewsByDevice[k] else 0) + 1];
      }
    }

    /** `incrementViewsByBrowser`. */
    method IncrementViewsByBrowser(browserInfo: Option<string>)
      modifies this
      ensures viewsByBrowser == Bumped(old(viewsByBrowser), browserInfo)
      ensures Snapshot() == old(Snapshot()) && lastUpdated == old(lastUpdated)
      ensures viewsByDevice == old(viewsByDevice) && viewsByCountry == old(viewsByCountry)
    {
      if browserInfo.Some? {
        var k := browserInfo.value;
        viewsByBrowser := viewsByBrowser[k := (if k in viewsByBrowser then viewsByBrowser[k] else 0) + 1];
      }
    }

    /** `incrementViewsByCountry`. */
    method IncrementViewsByCountry(countryCode: Option<string>)
      modifies this
      ensures viewsByCountry == Bumped(old(viewsByCountry), countryCode)
      ensures Snapshot() == old(Snapshot()) && lastUpdated == old(lastUpdated)
      ensures viewsByDevice == old(viewsByDevice) && viewsByBrowser == old(viewsByBrowser)
    {
      if countryCode.Some? {
        var k := countryCode.value;
        viewsByCountry := viewsByCountry[k := (if k in viewsByCountry then viewsByCountry[k] else 0) + 1];
      }
    }
  }
}
