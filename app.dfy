/**
 * The single page of the "404 / Not Found" dashboard (src/App.jsx): one refresh
 * cycle that folds four independently settled source outcomes over a constant
 * fallback record, the per-source gating that decides whether a request is made
 * at all, and the light/dark theme with its persisted preference.
 *
 * HTTP, promise scheduling, React hooks and rendering are not part of the model:
 * every request is replaced by the outcome it settled to.
 */
module App {
  import opened Wrappers

  // ---------------------------------------------------------------------------
  // Payloads: the fields of the fallback record. Temperature and wind speed are
  // exact reals here; nothing computes with them.
  // ---------------------------------------------------------------------------

  datatype Current = Current(tempC: real, condition: string, humidity: int, windKph: real)
  datatype Weather = Weather(current: Current, location: string)
  datatype News = News(title: string, publishedAt: string, source: string, url: string)
  datatype Quote = Quote(content: string, author: string)

  /** The fallback record: one literal value per category. */
  datatype Baseline = Baseline(image: string, weather: Weather, news: News, quote: Quote)

  /**
   * The constant fallback record. Its news timestamp is the wall-clock time at
   * which the module was loaded, so that instant is a parameter here.
   */
  function MockData(loadStamp: string): (m: Baseline)
    ensures m.image != ""
    ensures m.news.publishedAt == loadStamp
  {
    Baseline(
      "https://images.unsplash.com/photo-1506744038136-46273834b3fb?ixlib=rb-4.0.3&auto=format&fit=crop&w=1600&q=80",
      Weather(Current(24.5, "Sunny", 45, 12.0), "California"),
      News("The Future of Design: Minimalist & Clean Interfaces", loadStamp, "DesignDaily", "#"),
      Quote("Simplicity is the ultimate sophistication.", "Leonardo da Vinci"))
  }

  /**
   * What the page shows. `image` is the extra key copied from the fallback record
   * (absent, i.e. None, before the first cycle commits); `None` in the other
   * optional slots is the null of the initial state.
   */
  datatype ViewModel = ViewModel(
    image: Option<string>,
    imageUrl: string,
    weather: Option<Weather>,
    news: Option<News>,
    quote: Option<Quote>)

  /** The state before any cycle has committed: an empty URL and three nulls. */
  function InitialData(): (v: ViewModel)
    ensures !Complete(v)
    ensures v.image.None? && v.imageUrl == ""
  {
    ViewModel(None, "", None, None, None)
  }

  /** Every slot the page renders is populated. */
  predicate Complete(v: ViewModel) {
    v.image.Some? && v.imageUrl != "" && v.weather.Some? && v.news.Some? && v.quote.Some?
  }

  // ---------------------------------------------------------------------------
  // Settled outcomes
  // ---------------------------------------------------------------------------

  /** How one promise settled: fulfilled with a possibly-null value, or rejected. */
  datatype Settled<V> = Fulfilled(value: Option<V>) | Rejected

  /** A fulfilled outcome whose value is an object (every object is truthy). */
  predicate Truthy<V>(s: Settled<V>) {
    s.Fulfilled? && s.value.Some?
  }

  /** A fulfilled outcome whose value is a truthy string, i.e. a non-empty one. */
  predicate TruthyUrl(s: Settled<string>) {
    Truthy(s) && s.value.value != ""
  }

  /**
   * The source configuration: each key as read from the environment, None when
   * the variable is not set.
   */
  datatype Env = Env(unsplashKey: Option<string>, weatherKey: Option<string>, newsKey: Option<string>)

  /**
   * What each request would settle to if it were issued, the field the source
   * reads already extracted: the image's regular URL, the weather body, the
   * news body's article list and the quote body.
   */
  datatype Calls = Calls(
    image: Settled<string>,
    weather: Settled<Weather>,
    articles: Settled<seq<News>>,
    quote: Settled<Quote>)

  /** The four outcomes of one cycle, in the order image, weather, news, quote. */
  datatype Results = Results(
    image: Settled<string>,
    weather: Settled<Weather>,
    news: Settled<News>,
    quote: Settled<Quote>)

  // ---------------------------------------------------------------------------
  // Credential gating
  // ---------------------------------------------------------------------------

  /** The marker that identifies a key left at its template value. */
  const Placeholder := "YOUR_"

  /** `sub` occurs in `s` starting at index `i`. */
  predicate OccursAt(s: string, sub: string, i: int) {
    0 <= i && i + |sub| <= |s| && s[i..i + |sub|] == sub
  }

  /** Occurrences in `s[1..]` are the occurrences in `s` past index 0, shifted left by one. */
  lemma OccursShift(s: string, sub: string)
    requires |s| > 0
    ensures forall i :: OccursAt(s[1..], sub, i) ==> OccursAt(s, sub, i + 1)
    ensures forall i :: OccursAt(s, sub, i) && i > 0 ==> OccursAt(s[1..], sub, i - 1)
  {
  }

  /** Substring search (String.prototype.includes): true iff `sub` occurs somewhere in `s`. */
  function Includes(s: string, sub: string): (r: bool)
    ensures r <==> exists i :: OccursAt(s, sub, i)
    decreases |s|
  {
    if |s| < |sub| then
      false
    else if s[..|sub|] == sub then
      assert OccursAt(s, sub, 0);
      true
    else
      OccursShift(s, sub);
      assert !OccursAt(s, sub, 0);
      Includes(s[1..], sub)
  }

  /** The value of `import.meta.env.X || ''`: an unset variable reads as the empty key. */
  function KeyOf(setting: Option<string>): (key: string)
    ensures key == "" <==> setting.None? || setting.value == ""
    ensures setting.Some? ==> key == setting.value
  {
    setting.GetOr("")
  }

  /** A key counts as configured when it is non-empty and contains no placeholder marker. */
  function KeyConfigured(key: string): (ok: bool)
    ensures ok <==> key != "" && !exists i :: OccursAt(key, Placeholder, i)
  {
    key != "" && !Includes(key, Placeholder)
  }

  /** A gated source: no request unless its key is configured, a fulfilled null otherwise. */
  function Gated<V>(key: string, call: Settled<V>): (r: Settled<V>)
    ensures !KeyConfigured(key) ==> r == Fulfilled(None) && !Truthy(r)
    ensures KeyConfigured(key) ==> r == call
  {
    if KeyConfigured(key) then call else Fulfilled(None)
  }

  /** The news source takes the first article, and only from a present, non-empty list. */
  function NewsPick(articles: Option<seq<News>>): (first: Option<News>)
    ensures first.Some? <==> articles.Some? && |articles.value| > 0
    ensures first.Some? ==> first.value == articles.value[0]
  {
    if articles.Some? && |articles.value| > 0 then Some(articles.value[0]) else None
  }

  /** The news source: gated by its key; a rejected request stays rejected. */
  function NewsOutcome(key: string, call: Settled<seq<News>>): (r: Settled<News>)
    ensures !KeyConfigured(key) ==> r == Fulfilled(None)
    ensures r.Rejected? <==> KeyConfigured(key) && call.Rejected?
    ensures Truthy(r) <==> KeyConfigured(key) && call.Fulfilled? && call.value.Some? && |call.value.value| > 0
    ensures Truthy(r) ==> r.value.value == call.value.value[0]
  {
    if !KeyConfigured(key) then Fulfilled(None)
    else match call
      case Rejected => Rejected
      case Fulfilled(articles) => Fulfilled(NewsPick(articles))
  }

  /**
   * The four outcomes of one cycle. Image, weather and news are gated by their
   * keys and settle to a fulfilled null without a request when unconfigured; the
   * quote source has no gate.
   */
  function Settle(env: Env, calls: Calls): (r: Results)
    ensures !KeyConfigured(KeyOf(env.unsplashKey)) ==> r.image == Fulfilled(None)
    ensures !KeyConfigured(KeyOf(env.weatherKey)) ==> r.weather == Fulfilled(None)
    ensures !KeyConfigured(KeyOf(env.newsKey)) ==> r.news == Fulfilled(None)
    ensures KeyConfigured(KeyOf(env.unsplashKey)) ==> r.image == calls.image
    ensures KeyConfigured(KeyOf(env.weatherKey)) ==> r.weather == calls.weather
    ensures KeyConfigured(KeyOf(env.newsKey)) ==>
              (r.news.Rejected? <==> calls.articles.Rejected?) &&
              (calls.articles.Fulfilled? ==> r.news == Fulfilled(NewsPick(calls.articles.value)))
    ensures r.quote == calls.quote
  {
    Results(
      Gated(KeyOf(env.unsplashKey), calls.image),
      Gated(KeyOf(env.weatherKey), calls.weather),
      NewsOutcome(KeyOf(env.newsKey), calls.articles),
      calls.quote)
  }

  /** A key containing the placeholder marker anywhere is never configured. */
  lemma PlaceholderKeyRejected(prefix: string, suffix: string)
    ensures !KeyConfigured(prefix + Placeholder + suffix)
  {
    var key := prefix + Placeholder + suffix;
    assert key[|prefix|..|prefix| + |Placeholder|] == Placeholder;
    assert OccursAt(key, Placeholder, |prefix|);
  }

  // ---------------------------------------------------------------------------
  // The fold over the fallback record
  // ---------------------------------------------------------------------------

  /**
   * The record one cycle commits: the fallback record with `imageUrl` set to its
   * image, each slot then replaced by the live value of a truthy outcome.
   */
  function Merge(m: Baseline, r: Results): (v: ViewModel)
    ensures v.image == Some(m.image)
    ensures v.weather.Some? && v.news.Some? && v.quote.Some?
    ensures m.image != "" ==> Complete(v)
  {
    ViewModel(
      Some(m.image),
      if TruthyUrl(r.image) then r.image.value.value else m.image,
      Some(if Truthy(r.weather) then r.weather.value.value else m.weather),
      Some(if Truthy(r.news) then r.news.value.value else m.news),
      Some(if Truthy(r.quote) then r.quote.value.value else m.quote))
  }

  /** A slot whose outcome is fulfilled with a truthy value holds that live value. */
  lemma MergeTakesLive(m: Baseline, r: Results)
    ensures TruthyUrl(r.image) ==> Merge(m, r).imageUrl == r.image.value.value
    ensures Truthy(r.weather) ==> Merge(m, r).weather == r.weather.value
    ensures Truthy(r.news) ==> Merge(m, r).news == r.news.value
    ensures Truthy(r.quote) ==> Merge(m, r).quote == r.quote.value
  {
  }

  /** A slot whose outcome is rejected, null or empty holds the fallback value. */
  lemma MergeKeepsBaseline(m: Baseline, r: Results)
    ensures !TruthyUrl(r.image) ==> Merge(m, r).imageUrl == m.image
    ensures !Truthy(r.weather) ==> Merge(m, r).weather == Some(m.weather)
    ensures !Truthy(r.news) ==> Merge(m, r).news == Some(m.news)
    ensures !Truthy(r.quote) ==> Merge(m, r).quote == Some(m.quote)
    ensures Merge(m, r).image == Some(m.image)
  {
  }

  /** Each slot depends on its own outcome only: changing one outcome leaves every other slot alone. */
  lemma MergeSlotsIndependent(m: Baseline, r: Results, r': Results)
    ensures r.image == r'.image ==> Merge(m, r).imageUrl == Merge(m, r').imageUrl
    ensures r.weather == r'.weather ==> Merge(m, r).weather == Merge(m, r').weather
    ensures r.news == r'.news ==> Merge(m, r).news == Merge(m, r').news
    ensures r.quote == r'.quote ==> Merge(m, r).quote == Merge(m, r').quote
    ensures Merge(m, r).image == Merge(m, r').image
  {
  }

  /** Whatever the outcomes, the committed record has every slot populated. */
  lemma MergeComplete(loadStamp: string, r: Results)
    ensures Complete(Merge(MockData(loadStamp), r))
  {
  }

  /** An unconfigured gated source leaves its slot at the fallback value, whatever its request would do. */
  lemma UnconfiguredKeepsBaseline(m: Baseline, env: Env, calls: Calls)
    ensures !KeyConfigured(KeyOf(env.unsplashKey)) ==> Merge(m, Settle(env, calls)).imageUrl == m.image
    ensures !KeyConfigured(KeyOf(env.weatherKey)) ==> Merge(m, Settle(env, calls)).weather == Some(m.weather)
    ensures !KeyConfigured(KeyOf(env.newsKey)) ==> Merge(m, Settle(env, calls)).news == Some(m.news)
  {
  }

  /** A missing or empty article list leaves the fallback news item; a non-empty one yields its first article. */
  lemma NewsSlot(m: Baseline, env: Env, calls: Calls)
    requires KeyConfigured(KeyOf(env.newsKey)) && calls.articles.Fulfilled?
    ensures var articles := calls.articles.value;
            Merge(m, Settle(env, calls)).news ==
              if articles.Some? && |articles.value| > 0 then Some(articles.value[0]) else Some(m.news)
  {
  }

  /**
   * The worked example: weather key unset, image request timed out, an empty
   * article list and a live quote give the fallback values in the first three
   * slots and the live quote in the last.
   */
  lemma ScenarioExample(loadStamp: string, imageKey: string, newsKey: string)
    requires KeyConfigured(imageKey) && KeyConfigured(newsKey)
    ensures var m := MockData(loadStamp);
            var env := Env(Some(imageKey), None, Some(newsKey));
            var calls := Calls(Rejected, Rejected, Fulfilled(Some([])), Fulfilled(Some(Quote("X", "Y"))));
            Merge(m, Settle(env, calls)) ==
              ViewModel(Some(m.image), m.image, Some(m.weather), Some(m.news), Some(Quote("X", "Y")))
  {
  }

  // ---------------------------------------------------------------------------
  // Theme
  // ---------------------------------------------------------------------------

  /** The theme at start-up: the stored string when non-empty, otherwise "light". */
  function InitialTheme(stored: Option<string>): (t: string)
    ensures t != ""
    ensures stored.Some? && stored.value != "" ==> t == stored.value
    ensures stored.None? || stored.value == "" ==> t == "light"
  {
    if stored.Some? && stored.value != "" then stored.value else "light"
  }

  /** The toggle: "light" becomes "dark", every other value becomes "light". */
  function Toggle(t: string): (r: string)
    ensures r == "dark" || r == "light"
    ensures r == "dark" <==> t == "light"
  {
    if t == "light" then "dark" else "light"
  }

  /** On the two themes the page itself produces, toggling twice is the identity. */
  lemma ToggleInvolutive(t: string)
    requires t == "light" || t == "dark"
    ensures Toggle(Toggle(t)) == t
  {
  }

  /** Any theme the page can hold is restored unchanged by a reload from storage. */
  lemma ReloadRestoresTheme(t: string)
    requires t != ""
    ensures InitialTheme(Some(t)) == t
  {
  }

  // ---------------------------------------------------------------------------
  // The page's state
  // ---------------------------------------------------------------------------

  /**
   * The state the component holds: the loading flag, the displayed record, the
   * theme, and the stored preference (None when the storage has no entry).
   */
  class Dashboard {
    /** The instant the fallback record's news timestamp was taken. */
    const loadStamp: string
    var loading: bool
    var data: ViewModel
    var theme: string
    var stored: Option<string>

    /**
     * The stored preference always mirrors the current, non-empty theme, and
     * whenever the page is not loading the displayed record is fully populated.
     */
    ghost predicate Valid()
      reads this
    {
      theme != "" && stored == Some(theme) && (!loading ==> Complete(data))
    }

    /** Mounting: initial state, then the first run of the theme effect. */
    constructor (loadStamp: string, storedTheme: Option<string>)
      ensures this.loadStamp == loadStamp
      ensures loading && data == InitialData()
      ensures theme == InitialTheme(storedTheme)
      ensures Valid()
    {
      this.loadStamp := loadStamp;
      loading := true;
      data := InitialData();
      theme := InitialTheme(storedTheme);
      new;
      ApplyTheme();
    }

    /** The theme effect: write the current theme to storage. */
    method ApplyTheme()
      requires theme != "" && (!loading ==> Complete(data))
      modifies this`stored
      ensures stored == Some(theme)
      ensures Valid()
    {
      stored := Some(theme);
    }

    /** The toggle, followed by the theme effect it triggers. */
    method ToggleTheme()
      requires Valid()
      modifies this`theme, this`stored
      ensures Valid()
      ensures theme == Toggle(old(theme))
      ensures InitialTheme(stored) == theme
    {
      theme := Toggle(theme);
      ApplyTheme();
    }

    /** The start of a cycle: the busy flag goes up, the displayed record is kept while requests are pending. */
    method BeginFetch()
      requires Valid()
      modifies this`loading
      ensures Valid()
      ensures loading
    {
      loading := true;
    }

    /**
     * The end of a cycle, once all four outcomes have settled: the fallback
     * record is overwritten slot by slot, then committed in one assignment and
     * the busy flag cleared.
     */
    method CommitFetch(results: Results)
      requires Valid()
      modifies this`data, this`loading
      ensures Valid()
      ensures data == Merge(MockData(loadStamp), results)
      ensures Complete(data)
      ensures !loading
    {
      var mock := MockData(loadStamp);
      var newData := ViewModel(Some(mock.image), mock.image, Some(mock.weather), Some(mock.news), Some(mock.quote));
      if TruthyUrl(results.image) {
        newData := newData.(imageUrl := results.image.value.value);
      }
      if Truthy(results.weather) {
        newData := newData.(weather := results.weather.value);
      }
      if Truthy(results.news) {
        newData := newData.(news := results.news.value);
      }
      if Truthy(results.quote) {
        newData := newData.(quote := results.quote.value);
      }
      data := newData;
      loading := false;
    }

    /** One whole refresh cycle under the given configuration and request outcomes. */
    method FetchData(env: Env, calls: Calls)
      requires Valid()
      modifies this`data, this`loading
      ensures Valid()
      ensures data == Merge(MockData(loadStamp), Settle(env, calls))
      ensures Complete(data)
      ensures !loading
    {
      BeginFetch();
      var results := Settle(env, calls);
      CommitFetch(results);
    }
  }
}
