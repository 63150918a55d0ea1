/**
 * The `POST /api/optimize` handler (src/app/api/optimize/route.ts): it checks
 * the submitted text, turns the option flags into an ordered list of
 * instructions, joins them into the prompt sent to the hosted model, and
 * turns the model's completion into the `{original, optimized}` result.
 * The model itself is opaque: its answer is the parameter `upstream`.
 */
module OptimizeRoute {
  import opened Wrappers
  import opened JsText

  /** The instructions the handler can emit, one constructor per wording. */
  datatype Instruction =
    | FixGrammar | FixSpacing
    | ProfessionalTone | CasualTone | HypeTone
    | AddEmojis | NoEmojis
    | AddHashtags | NoHashtags
    | AlgoStyle

  // The four literals the spacing instruction is concatenated from (route.ts lines 27-30).
  const Spacing1 := "Fix spacing so the tweet is readable. "
  const Spacing2 := "Insert a blank line ONLY when necessary to separate distinct ideas. "
  const Spacing3 := "Do not over-space. Keep it tweet-friendly. "
  const Spacing4 := "At most 3 blank lines in total."

  /** The exact text the handler pushes for each instruction (route.ts lines 22-63). */
  function Wording(i: Instruction): string {
    match i
    case FixGrammar => "Fix grammar mistakes"
    case FixSpacing => Spacing1 + Spacing2 + Spacing3 + Spacing4
    case ProfessionalTone => "Rewrite in a professional, polished tone"
    case CasualTone => "Rewrite in a casual, fun, engaging tone"
    case HypeTone => "Rewrite in a hype, marketing-friendly style with urgency"
    case AddEmojis => "Add 2-4 relevant emojis naturally (do not overuse)"
    case NoEmojis => "Do NOT add any emojis"
    case AddHashtags => "Add 3-5 relevant trending hashtags at the end"
    case NoHashtags => "Do NOT add any hashtags"
    case AlgoStyle => "Optimize for Twitter algorithm (concise style, engaging hook, strong call-to-action)"
  }

  /** The length of each wording; no two are alike. */
  function WordingLength(i: Instruction): nat {
    match i
    case FixGrammar => 20
    case FixSpacing => 180
    case ProfessionalTone => 40
    case CasualTone => 39
    case HypeTone => 56
    case AddEmojis => 50
    case NoEmojis => 21
    case AddHashtags => 45
    case NoHashtags => 23
    case AlgoStyle => 84
  }

  lemma WordingHasLength(i: Instruction)
    ensures |Wording(i)| == WordingLength(i)
  {
    match i
    case FixSpacing =>
      assert |Spacing1| == 38 && |Spacing2| == 68 && |Spacing3| == 43 && |Spacing4| == 31;
    case FixGrammar => assert |Wording(FixGrammar)| == 20;
    case ProfessionalTone => assert |Wording(ProfessionalTone)| == 40;
    case CasualTone => assert |Wording(CasualTone)| == 39;
    case HypeTone => assert |Wording(HypeTone)| == 56;
    case AddEmojis => assert |Wording(AddEmojis)| == 50;
    case NoEmojis => assert |Wording(NoEmojis)| == 21;
    case AddHashtags => assert |Wording(AddHashtags)| == 45;
    case NoHashtags => assert |Wording(NoHashtags)| == 23;
    case AlgoStyle => assert |Wording(AlgoStyle)| == 84;
  }

  /** Which instruction has a wording of length `n`, if any. */
  function InstructionOfLength(n: nat): Option<Instruction> {
    if n == 20 then Some(FixGrammar)
    else if n == 180 then Some(FixSpacing)
    else if n == 40 then Some(ProfessionalTone)
    else if n == 39 then Some(CasualTone)
    else if n == 56 then Some(HypeTone)
    else if n == 50 then Some(AddEmojis)
    else if n == 21 then Some(NoEmojis)
    else if n == 45 then Some(AddHashtags)
    else if n == 23 then Some(NoHashtags)
    else if n == 84 then Some(AlgoStyle)
    else None
  }

  lemma LengthNamesInstruction(i: Instruction)
    ensures InstructionOfLength(WordingLength(i)) == Some(i)
  {
  }

  /** Distinct instructions have distinct wordings, so a wording names its instruction. */
  lemma WordingInjective(a: Instruction, b: Instruction)
    ensures Wording(a) == Wording(b) <==> a == b
  {
    if Wording(a) == Wording(b) {
      WordingHasLength(a);
      WordingHasLength(b);
      LengthNamesInstruction(a);
      LengthNamesInstruction(b);
    }
  }

  /** The wordings of a list of instructions, in order. */
  function Wordings(ts: seq<Instruction>): (r: seq<string>)
    ensures |r| == |ts| && forall i :: 0 <= i < |ts| ==> r[i] == Wording(ts[i])
  {
    seq(|ts|, i requires 0 <= i < |ts| => Wording(ts[i]))
  }

  /** The separator of `tasks.join(", ")`. */
  const Separator := ", "

  // The fixed parts of the prompt template, whitespace included (route.ts lines 66-71).
  const PromptHead := "\n      You are a tweet optimization assistant.\n      Given this tweet: \""
  const PromptMiddle := "\"\n      Apply the following transformations: "
  const PromptTail := ".\n      Only return the final optimized tweet. Do not include explanations.\n    "

  const NoTextError := "No text provided"
  const DefaultServerError := "Something went wrong"

  /**
   * The `options` object of the request body, each flag already reduced to
   * its JavaScript truthiness; `tone` is `None` when absent.
   */
  datatype Options = Options(
    grammar: bool,
    spacing: bool,
    tone: Option<string>,
    emojis: bool,
    hashtags: bool,
    algo: bool)

  /** The parsed request body `{ text, options }`. */
  datatype Request = Request(text: Option<string>, options: Option<Options>)

  /**
   * What reading the body yields. `Parsed` is a body that `req.json()` parses
   * and that destructures into `{ text, options }`. `Unparsable` carries the
   * message of the exception thrown otherwise: by `req.json()` on a body that
   * is not JSON, or by the destructuring on a JSON `null`.
   */
  datatype Payload = Parsed(request: Request) | Unparsable(message: string)

  /**
   * What the chat-completion call yields: the content of the first choice
   * (`None` when the choice, its message or its content is missing), or the
   * message of the exception it throws.
   */
  datatype Upstream = Completed(content: Option<string>) | Threw(message: string)

  datatype Body = ErrorBody(error: string) | ResultBody(original: string, optimized: string)

  datatype Response = Response(status: int, body: Body)

  /** What `options?.flag` reads when `options` itself is missing: every flag off, no tone. */
  const AllOff := Options(false, false, None, false, false, false)

  /** The options the handler reads: the body's own, or `AllOff` when it has none. */
  function Effective(options: Option<Options>): Options {
    match options
    case None => AllOff
    case Some(o) => o
  }

  /** `!text` is false: the text is present and not the empty string. */
  predicate HasText(text: Option<string>) {
    text.Some? && text.value != ""
  }

  // ---------------------------------------------------------------------
  // The instruction list, specified feature by feature
  // ---------------------------------------------------------------------

  /** The option features, each of which contributes at most one instruction. */
  datatype Feature = Grammar | Spacing | Tone | Emojis | Hashtags | Algo

  /** The fixed order in which the handler consults the features. */
  const FeatureOrder: seq<Feature> := [Grammar, Spacing, Tone, Emojis, Hashtags, Algo]

  function Position(f: Feature): (p: nat)
    ensures p < |FeatureOrder| && FeatureOrder[p] == f
  {
    match f
    case Grammar => 0
    case Spacing => 1
    case Tone => 2
    case Emojis => 3
    case Hashtags => 4
    case Algo => 5
  }

  /**
   * The tone instruction: one of three variants for "professional", "casual"
   * and "hype", and none for an absent or empty tone, for "none" and for any
   * other value.
   */
  function ToneInstruction(tone: Option<string>): (r: Option<Instruction>)
    ensures r.Some? <==> tone in {Some("professional"), Some("casual"), Some("hype")}
    ensures r == Some(ProfessionalTone) <==> tone == Some("professional")
    ensures r == Some(CasualTone) <==> tone == Some("casual")
    ensures r == Some(HypeTone) <==> tone == Some("hype")
  {
    if tone.Some? && tone.value != "" && tone.value != "none" then
      if tone.value == "professional" then Some(ProfessionalTone)
      else if tone.value == "casual" then Some(CasualTone)
      else if tone.value == "hype" then Some(HypeTone)
      else None
    else None
  }

  /** The instructions one feature contributes under the options `o`. */
  function Contribution(o: Options, f: Feature): seq<Instruction> {
    match f
    case Grammar => if o.grammar then [FixGrammar] else []
    case Spacing => if o.spacing then [FixSpacing] else []
    case Tone => if ToneInstruction(o.tone).Some? then [ToneInstruction(o.tone).value] else []
    case Emojis => [if o.emojis then AddEmojis else NoEmojis]
    case Hashtags => [if o.hashtags then AddHashtags else NoHashtags]
    case Algo => if o.algo then [AlgoStyle] else []
  }

  /**
   * The instruction list the handler builds for the options `o`: the
   * contributions of the features, in `FeatureOrder`.
   */
  function Tasks(o: Options): seq<Instruction> {
    Contribution(o, Grammar) + Contribution(o, Spacing) + Contribution(o, Tone) +
    Contribution(o, Emojis) + Contribution(o, Hashtags) + Contribution(o, Algo)
  }

  /** The feature an instruction answers to. */
  function FeatureOf(i: Instruction): Feature {
    match i
    case FixGrammar => Grammar
    case FixSpacing => Spacing
    case ProfessionalTone | CasualTone | HypeTone => Tone
    case AddEmojis | NoEmojis => Emojis
    case AddHashtags | NoHashtags => Hashtags
    case AlgoStyle => Algo
  }

  function Rank(i: Instruction): nat {
    Position(FeatureOf(i))
  }

  predicate StrictlyRanked(ts: seq<Instruction>) {
    forall i, j :: 0 <= i < j < |ts| ==> Rank(ts[i]) < Rank(ts[j])
  }

  /** Every instruction of `ts` ranks below `p`. */
  predicate RankedBelow(ts: seq<Instruction>, p: nat) {
    forall k :: 0 <= k < |ts| ==> Rank(ts[k]) < p
  }

  /** Every feature contributes at most one instruction, and it is one of that feature's. */
  lemma ContributionRanked(o: Options, f: Feature)
    ensures |Contribution(o, f)| <= 1
    ensures f in {Emojis, Hashtags} ==> |Contribution(o, f)| == 1
    ensures forall t :: t in Contribution(o, f) ==> FeatureOf(t) == f
  {
  }

  /**
   * Appending the contribution of feature `f` to a list strictly ranked
   * below `f` keeps it strictly ranked, and at most `f`'s rank.
   */
  lemma RankedAppend(ts: seq<Instruction>, c: seq<Instruction>, p: nat)
    requires StrictlyRanked(ts) && RankedBelow(ts, p)
    requires RankedAt(c, p)
    ensures StrictlyRanked(ts + c) && RankedBelow(ts + c, p + 1)
  {
    var r := ts + c;
    forall i, j | 0 <= i < j < |r| ensures Rank(r[i]) < Rank(r[j]) {
      if j >= |ts| {
        assert r[j] == c[j - |ts|] && r[i] == ts[i];
      }
    }
    forall k | 0 <= k < |r| ensures Rank(r[k]) < p + 1 {
      if k >= |ts| {
        assert r[k] == c[k - |ts|];
      }
    }
  }

  /** `c` is empty or a single instruction of rank `p`. */
  predicate RankedAt(c: seq<Instruction>, p: nat) {
    c == [] || (|c| == 1 && Rank(c[0]) == p)
  }

  /** A feature's contribution, ranked at that feature's position. */
  lemma ContributionAt(o: Options, f: Feature)
    ensures RankedAt(Contribution(o, f), Position(f))
  {
    ContributionRanked(o, f);
    var c := Contribution(o, f);
    if c != [] {
      assert c[0] in c;
    }
  }

  /** Six parts ranked 0 to 5 concatenate to a strictly ranked list. */
  lemma SixRanked(c0: seq<Instruction>, c1: seq<Instruction>, c2: seq<Instruction>,
                  c3: seq<Instruction>, c4: seq<Instruction>, c5: seq<Instruction>)
    requires RankedAt(c0, 0) && RankedAt(c1, 1) && RankedAt(c2, 2)
    requires RankedAt(c3, 3) && RankedAt(c4, 4) && RankedAt(c5, 5)
    ensures StrictlyRanked(c0 + c1 + c2 + c3 + c4 + c5)
  {
    RankedAppend([], c0, 0);
    assert [] + c0 == c0;
    RankedAppend(c0, c1, 1);
    RankedAppend(c0 + c1, c2, 2);
    RankedAppend(c0 + c1 + c2, c3, 3);
    RankedAppend(c0 + c1 + c2 + c3, c4, 4);
    RankedAppend(c0 + c1 + c2 + c3 + c4, c5, 5);
  }

  /**
   * Instructions appear in the fixed order grammar, spacing, tone, emojis,
   * hashtags, algorithm, and no feature contributes twice.
   */
  lemma TasksOrdered(o: Options)
    ensures StrictlyRanked(Tasks(o))
  {
    ContributionAt(o, Grammar);
    ContributionAt(o, Spacing);
    ContributionAt(o, Tone);
    ContributionAt(o, Emojis);
    ContributionAt(o, Hashtags);
    ContributionAt(o, Algo);
    SixRanked(Contribution(o, Grammar), Contribution(o, Spacing), Contribution(o, Tone),
              Contribution(o, Emojis), Contribution(o, Hashtags), Contribution(o, Algo));
  }

  function Count(b: bool): nat { if b then 1 else 0 }

  /**
   * One instruction per set flag among grammar, spacing and algo, one for a
   * recognised tone, and exactly one each for emojis and hashtags: the list
   * has between 2 and 6 entries.
   */
  lemma TaskCount(o: Options)
    ensures |Tasks(o)| ==
      Count(o.grammar) + Count(o.spacing) + Count(ToneInstruction(o.tone).Some?) + 2 + Count(o.algo)
    ensures 2 <= |Tasks(o)| <= 6
  {
  }

  /** An instruction is in the list exactly when its own feature contributes it. */
  lemma InTasks(o: Options, i: Instruction)
    ensures i in Tasks(o) <==> i in Contribution(o, FeatureOf(i))
  {
    ContributionRanked(o, Grammar);
    ContributionRanked(o, Spacing);
    ContributionRanked(o, Tone);
    ContributionRanked(o, Emojis);
    ContributionRanked(o, Hashtags);
    ContributionRanked(o, Algo);
  }

  /**
   * When the options call for an instruction, stated instruction by
   * instruction: an optional instruction when its flag is set, an emoji or
   * hashtag instruction when its flag has the matching value, a tone
   * instruction when its tone is the selected one.
   */
  predicate Selected(o: Options, i: Instruction) {
    match i
    case FixGrammar => o.grammar
    case FixSpacing => o.spacing
    case ProfessionalTone => o.tone == Some("professional")
    case CasualTone => o.tone == Some("casual")
    case HypeTone => o.tone == Some("hype")
    case AddEmojis => o.emojis
    case NoEmojis => !o.emojis
    case AddHashtags => o.hashtags
    case NoHashtags => !o.hashtags
    case AlgoStyle => o.algo
  }

  /** The list holds exactly the instructions the options call for. */
  lemma TaskPresence(o: Options, i: Instruction)
    ensures i in Tasks(o) <==> Selected(o, i)
  {
    InTasks(o, i);
  }

  /** The same at the level of the strings pushed: a wording is present exactly when the options call for it. */
  lemma WordingPresence(o: Options, i: Instruction)
    ensures Wording(i) in Wordings(Tasks(o)) <==> Selected(o, i)
  {
    var ts := Tasks(o);
    TaskPresence(o, i);
    if Wording(i) in Wordings(ts) {
      var k :| 0 <= k < |ts| && Wordings(ts)[k] == Wording(i);
      WordingInjective(ts[k], i);
    }
  }

  /** Without an `options` object only the two negative instructions remain. */
  lemma MissingOptionsTasks()
    ensures Tasks(Effective(None)) == [NoEmojis, NoHashtags]
  {
  }

  /**
   * Grammar and hashtags on, a professional tone, everything else off: the
   * grammar, professional-tone, no-emoji and hashtag instructions, in that
   * order, and no spacing or algorithm instruction.
   */
  lemma ExampleTasks()
    ensures Tasks(Options(true, false, Some("professional"), false, true, false)) ==
      [FixGrammar, ProfessionalTone, NoEmojis, AddHashtags]
  {
  }

  /**
   * Builds the instruction list as the handler does, pushing onto `tasks`
   * flag by flag (route.ts lines 19-63).
   */
  method BuildTasks(options: Option<Options>) returns (tasks: seq<Instruction>)
    ensures tasks == Tasks(Effective(options))
  {
    var o := Effective(options);
    tasks := [];
    if o.grammar {
      tasks := tasks + [FixGrammar];
    }
    if o.spacing {
      tasks := tasks + [FixSpacing];
    }
    assert tasks == Contribution(o, Grammar) + Contribution(o, Spacing);
    if o.tone.Some? && o.tone.value != "" && o.tone.value != "none" {
      if o.tone.value == "professional" {
        tasks := tasks + [ProfessionalTone];
      }
      if o.tone.value == "casual" {
        tasks := tasks + [CasualTone];
      }
      if o.tone.value == "hype" {
        tasks := tasks + [HypeTone];
      }
    }
    assert tasks == Contribution(o, Grammar) + Contribution(o, Spacing) + Contribution(o, Tone);
    if o.emojis {
      tasks := tasks + [AddEmojis];
    } else {
      tasks := tasks + [NoEmojis];
    }
    if o.hashtags {
      tasks := tasks + [AddHashtags];
    } else {
      tasks := tasks + [NoHashtags];
    }
    if o.algo {
      tasks := tasks + [AlgoStyle];
    }
  }

  // ---------------------------------------------------------------------
  // Joining the instructions and the prompt
  // ---------------------------------------------------------------------

  /** `ts.join(sep)`. */
  function Join(ts: seq<string>, sep: string): string {
    if |ts| == 0 then ""
    else if |ts| == 1 then ts[0]
    else ts[0] + sep + Join(ts[1..], sep)
  }

  /** Where the `k`-th element starts in `Join(ts, sep)`: every earlier element and its separator come first. */
  function Offset(ts: seq<string>, sep: string, k: nat): nat
    requires k <= |ts|
  {
    if k == 0 then 0 else |ts[0]| + |sep| + Offset(ts[1..], sep, k - 1)
  }

  /** The `k+1`-th element starts one element and one separator after the `k`-th. */
  lemma {:induction false} OffsetStep(ts: seq<string>, sep: string, k: nat)
    requires k < |ts|
    ensures Offset(ts, sep, k + 1) == Offset(ts, sep, k) + |ts[k]| + |sep|
  {
    if k > 0 {
      OffsetStep(ts[1..], sep, k - 1);
      assert ts[1..][k - 1] == ts[k];
    }
  }

  lemma SliceLeft(a: string, b: string, i: nat, j: nat)
    requires i <= j <= |a|
    ensures (a + b)[i..j] == a[i..j]
  {
  }

  lemma SliceRight(a: string, b: string, i: nat, j: nat)
    requires |a| <= i <= j <= |a| + |b|
    ensures (a + b)[i..j] == b[i - |a|..j - |a|]
  {
  }

  /** A join of two or more elements is the first, the separator, and the join of the rest. */
  lemma JoinCons(ts: seq<string>, sep: string)
    requires |ts| > 1
    ensures Join(ts, sep) == (ts[0] + sep) + Join(ts[1..], sep)
  {
  }

  /** The first element of a join comes first. */
  lemma JoinFirst(ts: seq<string>, sep: string)
    requires |ts| > 0
    ensures |ts[0]| <= |Join(ts, sep)| && Join(ts, sep)[..|ts[0]|] == ts[0]
  {
    if |ts| > 1 {
      JoinCons(ts, sep);
      SliceLeft(ts[0] + sep, Join(ts[1..], sep), 0, |ts[0]|);
    }
  }

  /** `Join` places every element at its offset. */
  lemma {:induction false} JoinAt(ts: seq<string>, sep: string, k: nat)
    requires k < |ts|
    ensures Offset(ts, sep, k) + |ts[k]| <= |Join(ts, sep)|
    ensures Join(ts, sep)[Offset(ts, sep, k)..Offset(ts, sep, k) + |ts[k]|] == ts[k]
  {
    if k == 0 {
      JoinFirst(ts, sep);
    } else {
      var head, rest := ts[0] + sep, Join(ts[1..], sep);
      JoinCons(ts, sep);
      JoinAt(ts[1..], sep, k - 1);
      assert ts[1..][k - 1] == ts[k];
      var p := Offset(ts[1..], sep, k - 1);
      assert Offset(ts, sep, k) == |head| + p;
      SliceRight(head, rest, |head| + p, |head| + p + |ts[k]|);
    }
  }

  /** `Join` ends right after its last element. */
  lemma {:induction false} JoinLength(ts: seq<string>, sep: string)
    requires |ts| > 0
    ensures |Join(ts, sep)| == Offset(ts, sep, |ts| - 1) + |ts[|ts| - 1]|
  {
    if |ts| > 1 {
      JoinCons(ts, sep);
      JoinLength(ts[1..], sep);
    }
  }

  /** In `Join`, every element but the last is followed by the separator. */
  lemma {:induction false} JoinSeparatorAt(ts: seq<string>, sep: string, k: nat)
    requires k + 1 < |ts|
    ensures Offset(ts, sep, k) + |ts[k]| + |sep| <= |Join(ts, sep)|
    ensures Join(ts, sep)[Offset(ts, sep, k) + |ts[k]|..Offset(ts, sep, k) + |ts[k]| + |sep|] == sep
  {
    var head, rest := ts[0] + sep, Join(ts[1..], sep);
    JoinCons(ts, sep);
    if k == 0 {
      SliceLeft(head, rest, |ts[0]|, |head|);
      assert head[|ts[0]|..] == sep;
    } else {
      JoinSeparatorAt(ts[1..], sep, k - 1);
      assert ts[1..][k - 1] == ts[k];
      var e := Offset(ts[1..], sep, k - 1) + |ts[k]|;
      SliceRight(head, rest, |head| + e, |head| + e + |sep|);
    }
  }

  /** The prompt for the tweet `text` and the joined instructions `directive`. */
  function Prompt(text: string, directive: string): string {
    PromptHead + text + PromptMiddle + directive + PromptTail
  }

  /** Where the directive starts in the prompt. */
  function DirectiveStart(text: string): nat {
    |PromptHead| + |text| + |PromptMiddle|
  }

  /** Where the parts of a five-part concatenation sit. */
  lemma TemplateSlices(h: string, x: string, m: string, d: string, t: string)
    ensures (h + x + m + d + t)[|h|..|h| + |x|] == x
    ensures (h + x + m + d + t)[|h| + |x| + |m|..|h| + |x| + |m| + |d|] == d
  {
    SliceRight(h, x + m + d + t, |h|, |h| + |x|);
    assert h + x + m + d + t == h + x + m + (d + t);
    SliceRight(h + x + m, d + t, |h| + |x| + |m|, |h| + |x| + |m| + |d|);
  }

  /** A slice of a part is a slice of the whole, shifted by where the part starts. */
  lemma SliceWithin(p: string, at: nat, d: string, o: nat, n: nat)
    requires at + |d| <= |p| && p[at..at + |d|] == d
    requires o + n <= |d|
    ensures p[at + o..at + o + n] == d[o..o + n]
  {
    var whole, part := p[at + o..at + o + n], d[o..o + n];
    forall i | 0 <= i < n ensures whole[i] == part[i] {
      assert p[at..at + |d|][o + i] == d[o + i];
    }
  }

  /** The prompt quotes the tweet verbatim right after the fixed head, and the directive after the fixed middle. */
  lemma PromptShape(text: string, directive: string)
    ensures var p := Prompt(text, directive);
      |PromptHead| + |text| <= |p| && p[|PromptHead|..|PromptHead| + |text|] == text
    ensures var p, at := Prompt(text, directive), DirectiveStart(text);
      at + |directive| <= |p| && p[at..at + |directive|] == directive
  {
    TemplateSlices(PromptHead, text, PromptMiddle, directive, PromptTail);
  }

  /** Wherever a joined list is embedded, each element sits at its offset from where the join starts. */
  lemma DirectiveAt(p: string, at: nat, tasks: seq<string>, sep: string, k: nat)
    requires k < |tasks|
    requires at + |Join(tasks, sep)| <= |p| && p[at..at + |Join(tasks, sep)|] == Join(tasks, sep)
    ensures at + Offset(tasks, sep, k) + |tasks[k]| <= |p|
    ensures p[at + Offset(tasks, sep, k)..at + Offset(tasks, sep, k) + |tasks[k]|] == tasks[k]
  {
    JoinAt(tasks, sep, k);
    SliceWithin(p, at, Join(tasks, sep), Offset(tasks, sep, k), |tasks[k]|);
  }

  /** Every instruction appears in the prompt at its place in the joined directive. */
  lemma PromptContains(text: string, tasks: seq<string>, k: nat)
    requires k < |tasks|
    ensures var p, at := Prompt(text, Join(tasks, Separator)), DirectiveStart(text) + Offset(tasks, Separator, k);
      at + |tasks[k]| <= |p| && p[at..at + |tasks[k]|] == tasks[k]
  {
    var d := Join(tasks, Separator);
    PromptShape(text, d);
    DirectiveAt(Prompt(text, d), DirectiveStart(text), tasks, Separator, k);
  }

  // ---------------------------------------------------------------------
  // The response
  // ---------------------------------------------------------------------

  /**
   * `completion?.trim() || text`: the trimmed completion when it is
   * non-empty, otherwise the submitted text.
   */
  function Optimized(text: string, content: Option<string>): (r: string)
    ensures content.Some? && Trim(content.value) != "" ==> r == Trim(content.value)
    ensures content.None? || Trim(content.value) == "" ==> r == text
  {
    match content
    case None => text
    case Some(c) => if Trim(c) != "" then Trim(c) else text
  }

  /**
   * A non-empty text never yields an empty `optimized`, and whatever is not
   * the original text carries no whitespace at either end.
   */
  lemma OptimizedNonEmpty(text: string, content: Option<string>)
    requires text != ""
    ensures Optimized(text, content) != ""
    ensures Optimized(text, content) == text ||
      (var r := Optimized(text, content); !IsWhitespace(r[0]) && !IsWhitespace(r[|r| - 1]))
  {
  }

  /** `err.message || "Something went wrong"`. */
  function ServerError(message: string): (r: Response)
    ensures r.status == 500 && r.body.ErrorBody? && r.body.error != ""
    ensures message != "" ==> r.body.error == message
    ensures message == "" ==> r.body.error == DefaultServerError
  {
    Response(500, ErrorBody(if message != "" then message else DefaultServerError))
  }

  /** The response the handler returns for `payload` when the model answers `upstream`. */
  function Respond(payload: Payload, upstream: Upstream): Response {
    match payload
    case Unparsable(m) => ServerError(m)
    case Parsed(req) =>
      if !HasText(req.text) then Response(400, ErrorBody(NoTextError))
      else match upstream
        case Threw(m) => ServerError(m)
        case Completed(c) => Response(200, ResultBody(req.text.value, Optimized(req.text.value, c)))
  }

  /** A missing or empty text is refused with status 400 and "No text provided", whatever the model would say. */
  lemma NoTextRejected(req: Request, upstream: Upstream)
    requires !HasText(req.text)
    ensures Respond(Parsed(req), upstream) == Response(400, ErrorBody("No text provided"))
  {
  }

  /**
   * Status 400 exactly for a parsed body without text; a success carries the
   * text verbatim as `original` and a non-empty `optimized`; every other
   * outcome is a 500 carrying a non-empty error.
   */
  lemma RespondOutcomes(payload: Payload, upstream: Upstream)
    ensures var r := Respond(payload, upstream);
      r.status in {200, 400, 500}
    ensures Respond(payload, upstream).status == 400 <==> payload.Parsed? && !HasText(payload.request.text)
    ensures var r := Respond(payload, upstream);
      r.status == 200 <==> payload.Parsed? && HasText(payload.request.text) && upstream.Completed?
    ensures var r := Respond(payload, upstream);
      r.status == 200 ==>
        r.body.ResultBody? && r.body.original == payload.request.text.value && r.body.optimized != ""
    ensures var r := Respond(payload, upstream);
      r.status != 200 ==> r.body.ErrorBody? && r.body.error != ""
  {
    match payload
    case Unparsable(_) =>
    case Parsed(req) =>
      if HasText(req.text) && upstream.Completed? {
        OptimizedNonEmpty(req.text.value, upstream.content);
      }
  }

  /** Only a falsy text is refused: text made of whitespace alone is sent on to the model. */
  lemma WhitespaceTextAccepted(text: string, options: Option<Options>, upstream: Upstream)
    requires text != "" && AllWhitespace(text)
    ensures Respond(Parsed(Request(Some(text), options)), upstream).status != 400
  {
  }

  /**
   * `POST`: returns the response and the prompt sent to the model, or `None`
   * when the handler answers without calling the model.
   */
  method Post(payload: Payload, upstream: Upstream) returns (response: Response, sent: Option<string>)
    ensures response == Respond(payload, upstream)
    ensures sent.Some? <==> payload.Parsed? && HasText(payload.request.text)
    ensures sent.Some? ==>
      sent.value == Prompt(payload.request.text.value, Join(Wordings(Tasks(Effective(payload.request.options))), Separator))
  {
    if payload.Unparsable? {
      return ServerError(payload.message), None;
    }
    var text, options := payload.request.text, payload.request.options;
    if !HasText(text) {
      return Response(400, ErrorBody(NoTextError)), None;
    }
    var tasks := BuildTasks(options);
    var prompt := Prompt(text.value, Join(Wordings(tasks), Separator));
    sent := Some(prompt);
    match upstream
    case Threw(m) =>
      response := ServerError(m);
    case Completed(c) =>
      response := Response(200, ResultBody(text.value, Optimized(text.value, c)));
  }
}
