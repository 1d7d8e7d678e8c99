/**
 * The `Img` component of `src/Img.tsx`: a visibility latch, media-query
 * driven source selection, and the guard that chooses between the fallback
 * and the image.
 *
 * The browser's media evaluation is an input: `matching` is the set of
 * media strings that match at the moment an operation runs. A media
 * subscription is a listener registered under an unsubscribe handle; it
 * remembers what its callback closed over (its entry, the list of medias
 * and `src`), so a callback from an old effect run behaves as it would in
 * the browser.
 */
module ImgComponent {
  import opened Basics

  /** One entry of the `sources` prop. */
  datatype Source = Source(source: Option<string>, media: string)

  /** `matchesQuery(media)`: the media string matches now. */
  predicate MatchesQuery(media: string, matching: set<string>)
  {
    media in matching
  }

  /** `matchesNothing(medias)`: none of the media strings matches now. */
  predicate MatchesNothing(medias: seq<string>, matching: set<string>)
  {
    forall i :: 0 <= i < |medias| ==> !MatchesQuery(medias[i], matching)
  }

  /** `sources.map(({ media }) => media)`. */
  function Medias(entries: seq<Source>): (ms: seq<string>)
    ensures |ms| == |entries|
    ensures forall i :: 0 <= i < |entries| ==> ms[i] == entries[i].media
  {
    seq(|entries|, i requires 0 <= i < |entries| => entries[i].media)
  }

  /**
   * `imageSource` after the effect's scan of `entries` in list order, starting
   * from `current`: each entry whose media matches now overwrites it.
   */
  function Scan(current: Option<string>, entries: seq<Source>, matching: set<string>): (r: Option<string>)
    decreases |entries|
  {
    if entries == [] then current
    else
      var last := entries[|entries| - 1];
      if MatchesQuery(last.media, matching) then last.source
      else Scan(current, entries[..|entries| - 1], matching)
  }

  /** Entry `i` matches now and no entry after it does. */
  predicate LastMatchAt(entries: seq<Source>, matching: set<string>, i: nat)
  {
    && i < |entries|
    && MatchesQuery(entries[i].media, matching)
    && forall j :: i < j < |entries| ==> !MatchesQuery(entries[j].media, matching)
  }

  /** The scan picks the source of the last matching entry. */
  lemma {:induction false} ScanSelectsLastMatch(current: Option<string>, entries: seq<Source>, matching: set<string>, i: nat)
    requires LastMatchAt(entries, matching, i)
    ensures Scan(current, entries, matching) == entries[i].source
    decreases |entries|
  {
    if i < |entries| - 1 {
      var prefix := entries[..|entries| - 1];
      assert LastMatchAt(prefix, matching, i);
      ScanSelectsLastMatch(current, prefix, matching, i);
    }
  }

  /** When no media matches, the scan leaves the current source as it is (it does not reset it to `src`). */
  lemma {:induction false} ScanWithoutMatch(current: Option<string>, entries: seq<Source>, matching: set<string>)
    requires MatchesNothing(Medias(entries), matching)
    ensures Scan(current, entries, matching) == current
    decreases |entries|
  {
    if entries != [] {
      var prefix := entries[..|entries| - 1];
      assert Medias(prefix) == Medias(entries)[..|entries| - 1];
      ScanWithoutMatch(current, prefix, matching);
    }
  }

  /** With media queries that exclude each other, the one that matches decides, wherever it stands in the list. */
  lemma ScanSelectsOnlyMatch(current: Option<string>, entries: seq<Source>, matching: set<string>, i: nat)
    requires i < |entries| && MatchesQuery(entries[i].media, matching)
    requires forall j :: 0 <= j < |entries| && j != i ==> !MatchesQuery(entries[j].media, matching)
    ensures Scan(current, entries, matching) == entries[i].source
  {
    assert LastMatchAt(entries, matching, i);
    ScanSelectsLastMatch(current, entries, matching, i);
  }

  /** JavaScript truthiness of `string | null | undefined`: present and not empty. */
  predicate Truthy(s: Option<string>)
  {
    s.Some? && s.value != ""
  }

  /** What the component renders. */
  datatype View = Fallback | Image(src: string)

  /** The render guard `!(visible && imageSource)`: the fallback, or the image with `src = imageSource`. */
  function Render(visible: bool, imageSource: Option<string>): (v: View)
    ensures v == Fallback <==> !visible || !Truthy(imageSource)
    ensures v.Image? ==> imageSource == Some(v.src) && v.src != ""
  {
    if !(visible && Truthy(imageSource)) then Fallback else Image(imageSource.value)
  }

  /** What a media-change callback closed over when the effect created it. */
  datatype Listener = Listener(entry: Source, medias: seq<string>, fallback: Option<string>)

  type Handle = nat

  class Img {
    // props
    var src: Option<string>
    var sources: Option<seq<Source>>
    // state cells
    var imageSource: Option<string>
    var visible: bool
    // live media subscriptions, by unsubscribe handle
    var listeners: map<Handle, Listener>
    var nextHandle: Handle
    // the handles the last effect run's cleanup will release
    var cleanup: seq<Handle>

    /** No handle is reused. */
    ghost predicate HandlesFresh()
      reads this
    {
      forall h :: h in listeners ==> h < nextHandle
    }

    /** The live subscriptions are exactly those the pending cleanup releases. */
    ghost predicate Valid()
      reads this
    {
      && HandlesFresh()
      && Distinct(cleanup)
      && (forall h :: h in listeners <==> h in cleanup)
    }

    /** First render: `useState(src)` and `useState(false)`. */
    constructor (src: Option<string>, sources: Option<seq<Source>>)
      ensures Valid()
      ensures this.src == src && this.sources == sources
      ensures imageSource == src && !visible
      ensures listeners == map[] && cleanup == []
    {
      this.src := src;
      this.sources := sources;
      imageSource := src;
      visible := false;
      listeners := map[];
      nextHandle := 0;
      cleanup := [];
    }

    /** The intersection callback: latch visibility and ask to stop observing. */
    method Observe() returns (stop: bool)
      modifies this`visible
      ensures visible && stop
    {
      visible := true;
      stop := true;
    }

    /** A re-render with new props; the state cells keep their values. */
    method SetProps(src: Option<string>, sources: Option<seq<Source>>)
      modifies this`src, this`sources
      ensures this.src == src && this.sources == sources
    {
      this.src := src;
      this.sources := sources;
    }

    /** What the component renders now. */
    function CurrentView(): (v: View)
      reads this
    {
      Render(visible, imageSource)
    }

    /**
     * The effect body: when visible and given `sources`, subscribe once per
     * entry in list order and, after each subscription, select that entry's
     * source if its media matches now. Returns the handles its cleanup
     * releases; with nothing to watch it subscribes to nothing and changes nothing.
     */
    method RunEffect(matching: set<string>) returns (handles: seq<Handle>)
      requires HandlesFresh()
      modifies this`imageSource, this`listeners, this`nextHandle
      ensures HandlesFresh() && old(nextHandle) <= nextHandle
      ensures forall h :: h in handles <==> old(nextHandle) <= h < nextHandle
      ensures forall h :: h in listeners <==> h in old(listeners) || h in handles
      ensures forall h :: h in old(listeners) ==> listeners[h] == old(listeners)[h]
      ensures !(visible && sources.Some?) ==> handles == [] && imageSource == old(imageSource)
      ensures visible && sources.Some? ==>
        && |handles| == |sources.value|
        && Distinct(handles)
        && (forall k :: 0 <= k < |handles| ==>
              listeners[handles[k]] == Listener(sources.value[k], Medias(sources.value), src))
        && imageSource == Scan(old(imageSource), sources.value, matching)
    {
      if !(visible && sources.Some?) {
        return [];
      }
      var entries := sources.value;
      var medias := Medias(entries);
      ghost var first := nextHandle;
      handles := [];
      var i := 0;
      while i < |entries|
        invariant 0 <= i <= |entries|
        invariant |handles| == i && nextHandle == first + i
        invariant forall k :: 0 <= k < i ==> handles[k] == first + k
        invariant forall h :: h in listeners <==> h in old(listeners) || first <= h < nextHandle
        invariant forall h :: h in old(listeners) ==> listeners[h] == old(listeners)[h]
        invariant forall k :: 0 <= k < i ==> listeners[first + k] == Listener(entries[k], medias, src)
        invariant imageSource == Scan(old(imageSource), entries[..i], matching)
      {
        var entry := entries[i];
        // matchMedia(media, callback): register the listener under a new handle
        var h := nextHandle;
        listeners := listeners[h := Listener(entry, medias, src)];
        nextHandle := nextHandle + 1;
        handles := handles + [h];
        if MatchesQuery(entry.media, matching) {
          imageSource := entry.source;
        }
        assert entries[..i + 1][..i] == entries[..i];
        i := i + 1;
      }
      assert entries[..i] == entries;
      forall h | first <= h < nextHandle ensures h in handles {
        assert handles[h - first] == h;
      }
    }

    /**
     * A change event of the live subscription `h`: a match selects the
     * entry's own source; an unmatch falls back to `src` only when no media
     * of the list matches.
     *
     * `matches` is left independent of `matching`: the event reports the
     * query's state when the change was observed, while `matchesNothing`
     * reads the state when the callback runs, and the two can differ when
     * changes follow each other quickly.
     */
    method OnChange(h: Handle, matches: bool, matching: set<string>)
      requires h in listeners
      modifies this`imageSource
      ensures matches ==> imageSource == listeners[h].entry.source
      ensures !matches && MatchesNothing(listeners[h].medias, matching) ==> imageSource == listeners[h].fallback
      ensures !matches && !MatchesNothing(listeners[h].medias, matching) ==> imageSource == old(imageSource)
    {
      var l := listeners[h];
      if matches {
        imageSource := l.entry.source;
      } else if MatchesNothing(l.medias, matching) {
        imageSource := l.fallback;
      }
    }

    /** The effect's cleanup: call every unsubscribe it holds. */
    method Cleanup(handles: seq<Handle>)
      modifies this`listeners
      ensures forall h :: h in listeners <==> h in old(listeners) && h !in handles
      ensures forall h :: h in listeners ==> listeners[h] == old(listeners)[h]
    {
      for i := 0 to |handles|
        invariant forall h :: h in listeners <==> h in old(listeners) && h !in handles[..i]
        invariant forall h :: h in listeners ==> listeners[h] == old(listeners)[h]
      {
        listeners := listeners - {handles[i]};
        assert handles[..i + 1] == handles[..i] + [handles[i]];
      }
      assert handles[..|handles|] == handles;
    }

    /**
     * The effect re-running after `src`, `visible` or `sources` changed (and on
     * mount): the previous run's cleanup, then the effect.
     */
    method CommitEffect(matching: set<string>)
      requires Valid()
      modifies this`imageSource, this`listeners, this`nextHandle, this`cleanup
      ensures Valid()
      ensures forall h :: h in old(listeners) ==> h !in listeners
      ensures !(visible && sources.Some?) ==>
        listeners == map[] && cleanup == [] && imageSource == old(imageSource)
      ensures visible && sources.Some? ==>
        && |cleanup| == |sources.value|
        && (forall k :: 0 <= k < |cleanup| ==>
              listeners[cleanup[k]] == Listener(sources.value[k], Medias(sources.value), src))
        && imageSource == Scan(old(imageSource), sources.value, matching)
        && (MatchesNothing(Medias(sources.value), matching) ==> imageSource == old(imageSource))
        && (forall i: nat :: LastMatchAt(sources.value, matching, i) ==> imageSource == sources.value[i].source)
    {
      Cleanup(cleanup);
      assert listeners == map[];
      cleanup := RunEffect(matching);
      if visible && sources.Some? {
        if MatchesNothing(Medias(sources.value), matching) {
          ScanWithoutMatch(old(imageSource), sources.value, matching);
        }
        forall j: nat | LastMatchAt(sources.value, matching, j) ensures imageSource == sources.value[j].source {
          ScanSelectsLastMatch(old(imageSource), sources.value, matching, j);
        }
      }
    }

    /** Unmount: the last cleanup runs and no subscription remains. */
    method Unmount()
      requires Valid()
      modifies this`listeners, this`cleanup
      ensures Valid()
      ensures listeners == map[] && cleanup == []
    {
      Cleanup(cleanup);
      cleanup := [];
    }
  }

  /**
   * A client of the component, driven by the four breakpoints of the
   * example application (example/index.tsx:10-27).
   */
  method BreakpointsScenario()
  {
    var desktop, wide, medium, small := "photo_2000.jpg", "photo_1200.jpg", "photo_991.jpg", "photo_534.jpg";
    var qDesktop, qWide := "(min-width: 1200px)", "(min-width: 992px) and (max-width: 1199px)";
    var qMedium, qSmall := "(min-width: 768px) and (max-width: 991px)", "(max-width: 767px)";
    var breakpoints := [Source(Some(desktop), qDesktop), Source(Some(wide), qWide),
                        Source(Some(medium), qMedium), Source(Some(small), qSmall)];
    var img := new Img(Some(desktop), Some(breakpoints));

    // Before the container is seen: no subscription, only the fallback.
    img.CommitEffect({qSmall});
    assert img.listeners == map[] && img.CurrentView() == Fallback;

    // Seen on a 600px viewport: one subscription per breakpoint, the small image.
    var stop := img.Observe();
    img.CommitEffect({qSmall});
    assert LastMatchAt(breakpoints, {qSmall}, 3);
    assert |img.cleanup| == 4 && img.imageSource == Some(small);
    assert img.CurrentView() == Image(small);

    // Widened to 800px: the small query unmatches while the medium one matches.
    var hSmall, hMedium := img.cleanup[3], img.cleanup[2];
    img.OnChange(hSmall, false, {qMedium});
    assert img.listeners[hSmall].medias[2] == qMedium;
    assert img.imageSource == Some(small);
    img.OnChange(hMedium, true, {qMedium});
    assert img.imageSource == Some(medium);

    // New props with an empty list: the scan matches nothing and keeps the
    // medium image; it does not return to `src`.
    img.SetProps(Some(desktop), Some([]));
    img.CommitEffect({qMedium});
    assert img.listeners == map[] && img.imageSource == Some(medium);

    img.Unmount();
  }
}
