/**
 * The page component (src/app/page.tsx): the options record and its
 * checkbox toggles, the optimize action that calls the handler and updates
 * the page's state, and the compaction of the result for display.
 */
module Page {
  import opened Wrappers
  import opened JsText
  import OptimizeRoute

  const EmptyTweetWarning := "\U{26A0}\U{FE0F} Please enter a tweet first."
  const CouldNotOptimize := "\U{26A0}\U{FE0F} Could not optimize tweet."
  const ErrorOptimizing := "\U{274C} Error optimizing tweet."

  /** The tone selector's four values. */
  datatype Tone = NoTone | Professional | Casual | Hype

  /** The string the selector stores and sends. */
  function ToneValue(t: Tone): string {
    match t
    case NoTone => "none"
    case Professional => "professional"
    case Casual => "casual"
    case Hype => "hype"
  }

  /** The page's options record; it has no `emojis` field. */
  datatype PageOptions = PageOptions(grammar: bool, hashtags: bool, spacing: bool, algo: bool, tone: Tone)

  /** Every flag on, no tone (page.tsx lines 13-19). */
  const InitialOptions := PageOptions(true, true, true, true, NoTone)

  /** The keys of the options record. */
  datatype OptionKey = GrammarKey | HashtagsKey | SpacingKey | AlgoKey | ToneKey

  /** The value of a boolean option. */
  function Flag(o: PageOptions, k: OptionKey): bool
    requires k != ToneKey
  {
    match k
    case GrammarKey => o.grammar
    case HashtagsKey => o.hashtags
    case SpacingKey => o.spacing
    case AlgoKey => o.algo
  }

  /**
   * `toggleOption(k)`: flips the boolean option `k` and nothing else; the
   * tone key leaves the record as it is.
   */
  function Toggled(o: PageOptions, k: OptionKey): (r: PageOptions)
    ensures r.tone == o.tone
    ensures k == ToneKey ==> r == o
    ensures k != ToneKey ==> Flag(r, k) == !Flag(o, k)
    ensures forall j :: j != ToneKey && j != k ==> Flag(r, j) == Flag(o, j)
  {
    match k
    case ToneKey => o
    case GrammarKey => o.(grammar := !o.grammar)
    case HashtagsKey => o.(hashtags := !o.hashtags)
    case SpacingKey => o.(spacing := !o.spacing)
    case AlgoKey => o.(algo := !o.algo)
  }

  /** Toggling the same key twice restores the record. */
  lemma ToggleTwice(o: PageOptions, k: OptionKey)
    ensures Toggled(Toggled(o, k), k) == o
  {
  }

  /**
   * The body `{ text: tweet, options }` as the handler parses it. The
   * handler reads `options.emojis`, which this record lacks, as unset.
   */
  function RequestFor(tweet: string, o: PageOptions): OptimizeRoute.Request {
    OptimizeRoute.Request(
      Some(tweet),
      Some(OptimizeRoute.Options(o.grammar, o.spacing, Some(ToneValue(o.tone)), false, o.hashtags, o.algo)))
  }

  /** The instructions the handler builds for a request from this page. */
  function PageTasks(o: PageOptions): seq<OptimizeRoute.Instruction> {
    OptimizeRoute.Tasks(OptimizeRoute.Effective(RequestFor("", o).options))
  }

  /**
   * Every request from this page asks the model not to add emojis, and
   * never to add them; the other instructions follow the page's flags and
   * tone.
   */
  lemma PageRequestsForbidEmojis(o: PageOptions)
    ensures OptimizeRoute.NoEmojis in PageTasks(o)
    ensures OptimizeRoute.AddEmojis !in PageTasks(o)
    ensures OptimizeRoute.Wording(OptimizeRoute.NoEmojis) in OptimizeRoute.Wordings(PageTasks(o))
    ensures OptimizeRoute.Wording(OptimizeRoute.AddEmojis) !in OptimizeRoute.Wordings(PageTasks(o))
  {
    var ro := OptimizeRoute.Effective(RequestFor("", o).options);
    OptimizeRoute.TaskPresence(ro, OptimizeRoute.NoEmojis);
    OptimizeRoute.TaskPresence(ro, OptimizeRoute.AddEmojis);
    OptimizeRoute.WordingPresence(ro, OptimizeRoute.NoEmojis);
    OptimizeRoute.WordingPresence(ro, OptimizeRoute.AddEmojis);
  }

  /** The page's tone selection maps onto the handler's tone instructions; "none" adds none. */
  lemma PageToneInstruction(o: PageOptions)
    ensures var ti := OptimizeRoute.ToneInstruction(Some(ToneValue(o.tone)));
      match o.tone
      case NoTone => ti.None?
      case Professional => ti == Some(OptimizeRoute.ProfessionalTone)
      case Casual => ti == Some(OptimizeRoute.CasualTone)
      case Hype => ti == Some(OptimizeRoute.HypeTone)
  {
  }

  /** With the initial options the handler asks for grammar, spacing, no emojis, hashtags and the algorithm style. */
  lemma InitialTasks()
    ensures PageTasks(InitialOptions) == [
      OptimizeRoute.FixGrammar, OptimizeRoute.FixSpacing, OptimizeRoute.NoEmojis,
      OptimizeRoute.AddHashtags, OptimizeRoute.AlgoStyle]
  {
    PageToneInstruction(InitialOptions);
  }

  // ---------------------------------------------------------------------
  // Display compaction: `raw.replace(/\n{2,}/g, "\n")`
  // ---------------------------------------------------------------------

  /** Replaces every run of two or more line feeds with a single line feed. */
  function Compact(s: string): (r: string)
    ensures |r| <= |s|
    ensures r == [] <==> s == []
    ensures s != [] ==> r[0] == s[0]
  {
    if s == [] then []
    else if |s| >= 2 && s[0] == '\n' && s[1] == '\n' then Compact(s[1..])
    else [s[0]] + Compact(s[1..])
  }

  predicate NoDoubleNewline(s: string) {
    forall i :: 0 <= i < |s| - 1 ==> !(s[i] == '\n' && s[i + 1] == '\n')
  }

  /** The characters of `s` other than line feeds, in order. */
  function WithoutNewlines(s: string): (r: string)
    ensures forall c :: c in r ==> c in s && c != '\n'
  {
    if s == [] then [] else (if s[0] == '\n' then [] else [s[0]]) + WithoutNewlines(s[1..])
  }

  /** A string of `n` line feeds. */
  function Newlines(n: nat): (r: string)
    ensures |r| == n && forall i :: 0 <= i < n ==> r[i] == '\n'
  {
    if n == 0 then [] else "\n" + Newlines(n - 1)
  }

  /** The compacted string never holds two line feeds in a row. */
  lemma {:induction false} CompactNoDouble(s: string)
    ensures NoDoubleNewline(Compact(s))
  {
    if s != [] {
      CompactNoDouble(s[1..]);
      if !(|s| >= 2 && s[0] == '\n' && s[1] == '\n') {
        var rest := Compact(s[1..]);
        var r := [s[0]] + rest;
        assert Compact(s) == r;
        forall i | 0 <= i < |r| - 1 ensures !(r[i] == '\n' && r[i + 1] == '\n') {
          if i > 0 {
            assert r[i] == rest[i - 1] && r[i + 1] == rest[i];
          }
        }
      }
    }
  }

  /** Compaction deletes nothing but line feeds. */
  lemma {:induction false} CompactKeepsText(s: string)
    ensures WithoutNewlines(Compact(s)) == WithoutNewlines(s)
  {
    if s != [] {
      CompactKeepsText(s[1..]);
      if !(|s| >= 2 && s[0] == '\n' && s[1] == '\n') {
        var r := [s[0]] + Compact(s[1..]);
        assert r[0] == s[0] && r[1..] == Compact(s[1..]);
      }
    }
  }

  /** Compaction leaves a string alone exactly when it has no two line feeds in a row. */
  lemma {:induction false} CompactIdentity(s: string)
    ensures Compact(s) == s <==> NoDoubleNewline(s)
  {
    if s != [] {
      CompactIdentity(s[1..]);
      if |s| >= 2 && s[0] == '\n' && s[1] == '\n' {
        assert !NoDoubleNewline(s);
        assert |Compact(s)| < |s|;
      } else if NoDoubleNewline(s) {
        assert NoDoubleNewline(s[1..]) by {
          forall i | 0 <= i < |s[1..]| - 1 ensures !(s[1..][i] == '\n' && s[1..][i + 1] == '\n') {
            assert s[1..][i] == s[i + 1] && s[1..][i + 1] == s[i + 2];
          }
        }
      } else {
        CompactNoDouble(s);
      }
    }
  }

  /** Compacting twice is compacting once. */
  lemma CompactIdempotent(s: string)
    ensures Compact(Compact(s)) == Compact(s)
  {
    CompactNoDouble(s);
    CompactIdentity(Compact(s));
  }

  /** A run of one or more line feeds becomes exactly one. */
  lemma {:induction false} CompactRun(n: nat)
    ensures Compact(Newlines(n)) == if n == 0 then "" else "\n"
  {
    if n >= 2 {
      CompactRun(n - 1);
      assert Newlines(n)[1..] == Newlines(n - 1);
    } else if n == 1 {
      assert Newlines(1)[1..] == [];
    }
  }

  /**
   * Compaction works run by run: a character other than a line feed is kept
   * and separates what comes before it from what comes after.
   */
  lemma {:induction false} CompactSplit(a: string, c: char, b: string)
    requires c != '\n'
    ensures Compact(a + [c] + b) == Compact(a) + [c] + Compact(b)
  {
    var s := a + [c] + b;
    if a == [] {
      assert s == [c] + b && s[1..] == b;
    } else {
      assert s[0] == a[0] && s[1..] == a[1..] + [c] + b;
      CompactSplit(a[1..], c, b);
      if |a| == 1 {
        assert s[1] == c;
      } else {
        assert s[1] == a[1];
      }
    }
  }

  // ---------------------------------------------------------------------
  // The page's state and the optimize action
  // ---------------------------------------------------------------------

  /** How the browser's `fetch` ends: the handler's response arrives, or the request fails. */
  datatype Transport = Delivered(upstream: OptimizeRoute.Upstream) | NetworkError

  /** `data.optimized || "⚠️ Could not optimize tweet."` for the parsed response body. */
  function Raw(body: OptimizeRoute.Body): (r: string)
    ensures r != ""
    ensures body.ResultBody? && body.optimized != "" ==> r == body.optimized
    ensures body.ResultBody? && body.optimized == "" ==> r == CouldNotOptimize
    ensures body.ErrorBody? ==> r == CouldNotOptimize
  {
    match body
    case ResultBody(_, optimized) => if optimized != "" then optimized else CouldNotOptimize
    case ErrorBody(_) => CouldNotOptimize
  }

  /** The page component's state. */
  class PageState {
    var tweet: string
    var optimized: string
    var copyText: string
    var loading: bool
    var options: PageOptions

    constructor ()
      ensures tweet == "" && optimized == "" && copyText == "" && !loading
      ensures options == InitialOptions
    {
      tweet, optimized, copyText, loading := "", "", "", false;
      options := InitialOptions;
    }

    /** The textarea's change handler. */
    method SetTweet(t: string)
      modifies this
      ensures tweet == t
      ensures optimized == old(optimized) && copyText == old(copyText)
      ensures loading == old(loading) && options == old(options)
    {
      tweet := t;
    }

    /** A checkbox's change handler. */
    method ToggleOption(k: OptionKey)
      modifies this
      ensures options == Toggled(old(options), k)
      ensures tweet == old(tweet) && optimized == old(optimized)
      ensures copyText == old(copyText) && loading == old(loading)
    {
      options := Toggled(options, k);
    }

    /** The tone selector's change handler. */
    method SelectTone(t: Tone)
      modifies this
      ensures options == old(options).(tone := t)
      ensures tweet == old(tweet) && optimized == old(optimized)
      ensures copyText == old(copyText) && loading == old(loading)
    {
      options := options.(tone := t);
    }

    /**
     * `handleOptimize`. A tweet that trims to nothing sends no request and
     * shows the warning. Otherwise the request goes out; on a response the
     * raw result is kept for copying and its compacted form is displayed, and
     * on a failed fetch the error message is shown; either way loading ends.
     * Returns the request sent, if any.
     */
    method HandleOptimize(transport: Transport) returns (sent: Option<OptimizeRoute.Request>)
      modifies this
      ensures tweet == old(tweet) && options == old(options)
      ensures sent.None? <==> AllWhitespace(old(tweet))
      ensures sent.Some? ==> sent.value == RequestFor(old(tweet), old(options))
      ensures sent.None? ==>
        optimized == EmptyTweetWarning && copyText == "" && loading == old(loading)
      ensures sent.Some? ==> !loading
      ensures sent.Some? && transport.NetworkError? ==> optimized == ErrorOptimizing && copyText == ""
      ensures sent.Some? && transport.Delivered? ==>
        copyText == Raw(OptimizeRoute.Respond(OptimizeRoute.Parsed(sent.value), transport.upstream).body) &&
        optimized == Compact(copyText)
    {
      var blank := IsBlank(tweet);
      if blank {
        optimized := EmptyTweetWarning;
        copyText := "";
        return None;
      }
      loading := true;
      var request := RequestFor(tweet, options);
      sent := Some(request);
      match transport {
        case NetworkError =>
          optimized := ErrorOptimizing;
          copyText := "";
        case Delivered(upstream) =>
          var response, _ := OptimizeRoute.Post(OptimizeRoute.Parsed(request), upstream);
          var raw := Raw(response.body);
          optimized := Compact(raw);
          copyText := raw;
      }
      loading := false;
    }
  }

  /**
   * A request from this page is never refused for missing text: the page
   * only sends tweets that are not blank.
   */
  lemma PageNeverSendsEmptyText(tweet: string, o: PageOptions, upstream: OptimizeRoute.Upstream)
    requires !AllWhitespace(tweet)
    ensures OptimizeRoute.Respond(OptimizeRoute.Parsed(RequestFor(tweet, o)), upstream).status != 400
  {
  }

  /**
   * When the model answers, the page copies the trimmed completion, or the
   * tweet itself when the completion is missing or blank; a failure of the
   * model call shows as "Could not optimize tweet.".
   */
  lemma PageResult(tweet: string, o: PageOptions, upstream: OptimizeRoute.Upstream)
    requires !AllWhitespace(tweet)
    ensures var raw := Raw(OptimizeRoute.Respond(OptimizeRoute.Parsed(RequestFor(tweet, o)), upstream).body);
      match upstream
      case Threw(_) => raw == CouldNotOptimize
      case Completed(c) => raw == OptimizeRoute.Optimized(tweet, c) && raw != ""
  {
    if upstream.Completed? {
      OptimizeRoute.OptimizedNonEmpty(tweet, upstream.content);
    }
  }
}
