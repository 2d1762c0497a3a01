/**
 * The hero slideshow: three background slides, each with a heading and a
 * subtitle looked up by key in the current language's table, rotated by an
 * interval timer and selectable through a row of indicator buttons.
 */
module HeroSlideshow {
  import Translations

  datatype HeroSlide = HeroSlide(imageUrl: string, headingKey: string, subtitleKey: string)

  const Slides: seq<HeroSlide> := [
    HeroSlide("/sena image 1.png", "heading1", "subtitle1"),
    HeroSlide("/hero2.png", "heading2", "subtitle2"),
    HeroSlide("/hero 3.png", "heading3", "subtitle3")
  ]

  const SlideCount: nat := 3

  /** Period of the rotation timer, in milliseconds. */
  const RotationIntervalMs: nat := 6000

  const PlaceholderImage: string := "/placeholder.svg"

  /** The keys every language table defines. */
  const SlideTextKeys: set<string> := {"heading1", "subtitle1", "heading2", "subtitle2", "heading3", "subtitle3"}

  /** The keys defined by each language's table; the texts themselves carry no behaviour. */
  const TableKeys: map<string, set<string>> := map[
    "en" := SlideTextKeys, "zh" := SlideTextKeys, "fr" := SlideTextKeys, "it" := SlideTextKeys,
    "de" := SlideTextKeys, "es" := SlideTextKeys, "pt" := SlideTextKeys, "nl" := SlideTextKeys
  ]

  /** `translations[language] || translations.en`. */
  function TranslationTable(code: string): (t: string)
    ensures t in TableKeys
    ensures code in TableKeys ==> t == code
    ensures code !in TableKeys ==> t == "en"
  {
    assert TableKeys.Keys == Translations.EightLanguages;
    Translations.TableWithFallback(Translations.EightLanguages, code)
  }

  /**
   * Slide k is captioned by `heading{k+1}` and `subtitle{k+1}`, and the table
   * chosen for any language code defines both, so the caption is never missing.
   */
  lemma CaptionAlwaysDefined(code: string, k: nat)
    requires k < SlideCount
    ensures Slides[k].headingKey == "heading" + [(k + 1) as char + '0']
    ensures Slides[k].subtitleKey == "subtitle" + [(k + 1) as char + '0']
    ensures Slides[k].headingKey in TableKeys[TranslationTable(code)]
    ensures Slides[k].subtitleKey in TableKeys[TranslationTable(code)]
  {
  }

  /** The background image: `slide.imageUrl || "/placeholder.svg"`; every slide has its own image. */
  function ImageSource(k: nat): (src: string)
    requires k < SlideCount
    ensures src == Slides[k].imageUrl && src != PlaceholderImage
  {
    if Slides[k].imageUrl == "" then PlaceholderImage else Slides[k].imageUrl
  }

  /** One tick of the rotation timer: `(prev + 1) % slides.length`. */
  function NextSlide(prev: nat): (next: nat)
    ensures next < SlideCount
    ensures prev + 1 < SlideCount ==> next == prev + 1
    ensures prev == SlideCount - 1 ==> next == 0
  {
    (prev + 1) % SlideCount
  }

  /** The slide shown after `n` ticks starting from slide `start`. */
  function SlideAfterTicks(start: nat, n: nat): nat {
    if n == 0 then start else NextSlide(SlideAfterTicks(start, n - 1))
  }

  /** After n ticks from an in-range slide, the slide is (start + n) mod 3. */
  lemma {:induction false} SlideAfterTicksClosedForm(start: nat, n: nat)
    requires start < SlideCount
    ensures SlideAfterTicks(start, n) == (start + n) % SlideCount
  {
    if n > 0 {
      SlideAfterTicksClosedForm(start, n - 1);
    }
  }

  /** Every three ticks the rotation is back where it started. */
  lemma ThreeTicksReturn(start: nat, n: nat)
    requires start < SlideCount
    ensures SlideAfterTicks(start, n + SlideCount) == SlideAfterTicks(start, n)
  {
    SlideAfterTicksClosedForm(start, n);
    SlideAfterTicksClosedForm(start, n + SlideCount);
  }

  /** Every slide comes round: slide k is shown after ((k - start) mod 3) ticks. */
  lemma EverySlideReached(start: nat, k: nat)
    requires start < SlideCount && k < SlideCount
    ensures SlideAfterTicks(start, (k + SlideCount - start) % SlideCount) == k
  {
    SlideAfterTicksClosedForm(start, (k + SlideCount - start) % SlideCount);
  }

  /** The highlight of each indicator button: bright exactly for the current slide. */
  function Indicators(current: nat): seq<bool> {
    seq(SlideCount, i requires 0 <= i < SlideCount => i == current)
  }

  /** The number of true entries. */
  function CountTrue(bs: seq<bool>): (n: nat)
    ensures n <= |bs|
  {
    if bs == [] then 0 else (if bs[0] then 1 else 0) + CountTrue(bs[1..])
  }

  /** No entry is true, so none is counted. */
  lemma {:induction false} CountTrueNone(bs: seq<bool>)
    requires forall i :: 0 <= i < |bs| ==> !bs[i]
    ensures CountTrue(bs) == 0
  {
    if bs != [] {
      CountTrueNone(bs[1..]);
    }
  }

  /** Exactly entry j is true, so exactly one is counted. */
  lemma {:induction false} CountTrueSingle(bs: seq<bool>, j: nat)
    requires j < |bs|
    requires forall i :: 0 <= i < |bs| ==> (bs[i] <==> i == j)
    ensures CountTrue(bs) == 1
  {
    if j == 0 {
      CountTrueNone(bs[1..]);
    } else {
      CountTrueSingle(bs[1..], j - 1);
    }
  }

  /** For an in-range current slide, exactly one indicator is highlighted, and it is the current one. */
  lemma ExactlyOneIndicator(current: nat)
    requires current < SlideCount
    ensures |Indicators(current)| == SlideCount && Indicators(current)[current]
    ensures CountTrue(Indicators(current)) == 1
  {
    CountTrueSingle(Indicators(current), current);
  }

  class HeroSlideshow {
    var currentSlide: nat

    ghost predicate Valid()
      reads this
    {
      currentSlide < SlideCount
    }

    /** The first slide on mount. */
    constructor ()
      ensures Valid() && currentSlide == 0
    {
      currentSlide := 0;
    }

    /** The interval timer fires: advance to the next slide, wrapping after the last. */
    method Tick()
      requires Valid()
      modifies this
      ensures Valid()
      ensures currentSlide == NextSlide(old(currentSlide))
    {
      currentSlide := (currentSlide + 1) % SlideCount;
    }

    /** A click on indicator `index` (the indicators are generated from the slides). */
    method GoToSlide(index: nat)
      requires index < SlideCount
      modifies this
      ensures Valid() && currentSlide == index
    {
      currentSlide := index;
    }
  }

  /**
   * Mounting and letting the timer fire `n` times: the shown slide is
   * n mod 3, and exactly its indicator is highlighted.
   */
  method RotationScenario(n: nat) returns (shown: nat, highlighted: seq<bool>)
    ensures shown == n % SlideCount
    ensures |highlighted| == SlideCount && shown < SlideCount
    ensures CountTrue(highlighted) == 1 && highlighted[shown]
  {
    var show := new HeroSlideshow();
    var ticks := 0;
    while ticks < n
      invariant ticks <= n && show.Valid()
      invariant show.currentSlide == SlideAfterTicks(0, ticks)
    {
      show.Tick();
      ticks := ticks + 1;
    }
    SlideAfterTicksClosedForm(0, n);
    shown := show.currentSlide;
    highlighted := Indicators(shown);
    ExactlyOneIndicator(shown);
  }
}
