/**
 * Post-processing of the generative model's answers (app/utils/ai.ts). The
 * model call itself is foreign: whether a client exists is a boolean, and what
 * the call gave back (its text, or the error it threw) is an input.
 */
module Ai {
  import opened Wrappers
  import opened Strings
  import opened Sequences

  /** What one `generateContent` call gave back: the response text, or a thrown error and its `message`. */
  datatype ModelReply = Reply(text: string) | Failed(message: Option<string>)

  /** How an exported function of ai.ts ended: a returned value, or an `Error` thrown with this message. */
  datatype Outcome<T> = Returned(value: T) | Threw(message: string)

  const DisabledMessage := "AI features are disabled."
  const TooLongMessage := "Audio too long or in unsupported format."
  const UnableMarker := "unable to transcribe"

  const PrefixHeres := "Here's"
  const PrefixTranscription := "The transcription is:"
  const PrefixAudioSays := "The audio says:"
  const ApologyUnable := "I'm unable to transcribe"
  const ApologyNoAccess := "I don't have access"
  const ApologyNeedAudio := "I need the audio"

  // ---------------------------------------------------------------- transcribeAudio

  /**
   * Where the lazy `.*?:` that follows "Here's" stops: the first ':' at or
   * after `from`, unless a line terminator comes first.
   */
  function ColonOnLine(s: string, from: nat): (r: Option<nat>)
    ensures r.Some? ==> from <= r.value < |s| && s[r.value] == ':'
    ensures r.Some? ==> forall k :: from <= k < r.value ==> s[k] != ':' && !IsLineTerminator(s[k])
    ensures r.None? ==> forall k :: from <= k < |s| && s[k] == ':' ==> !SingleLine(s[from..k])
    decreases |s| - from
  {
    if from >= |s| then None
    else if s[from] == ':' then Some(from)
    else if IsLineTerminator(s[from]) then None
    else
      var r := ColonOnLine(s, from + 1);
      assert r.None? ==> forall k :: from < k < |s| && s[k] == ':' ==> !SingleLine(s[from..k]) by {
        forall k | from < k < |s| && s[k] == ':' && r.None?
          ensures !SingleLine(s[from..k])
        {
          var m :| 0 <= m < |s[from + 1..k]| && IsLineTerminator(s[from + 1..k][m]);
          assert s[from..k][m + 1] == s[from + 1..k][m];
        }
      }
      r
  }

  /** `.replace(/^Here's.*?:/i, '')`. */
  function StripHeres(s: string): (r: string)
    ensures |r| <= |s| && r == s[|s| - |r|..]
  {
    if StartsWithIgnoreCase(s, PrefixHeres) then
      match ColonOnLine(s, |PrefixHeres|)
      case Some(j) => s[j + 1..]
      case None => s
    else s
  }

  /** `.replace(/^prefix/i, '')`. */
  function StripPrefix(s: string, prefix: string): (r: string)
    ensures |r| <= |s| && r == s[|s| - |r|..]
  {
    if StartsWithIgnoreCase(s, prefix) then s[|prefix|..] else s
  }

  /** `.replace(/^apology.*$/i, '')`: the whole string goes when it is one line starting with `apology`. */
  function DropApology(s: string, apology: string): (r: string)
    ensures |r| <= |s|
  {
    if StartsWithIgnoreCase(s, apology) && SingleLine(s[|apology|..]) then [] else s
  }

  /** The first three replacements: boilerplate that introduces the transcription. */
  function StripBoilerplate(text: string): (r: string)
    ensures |r| <= |text|
  {
    StripPrefix(StripPrefix(StripHeres(text), PrefixTranscription), PrefixAudioSays)
  }

  /** The last three replacements: a one-line apology instead of a transcription. */
  function DropApologies(s: string): (r: string)
    ensures |r| <= |s|
  {
    DropApology(DropApology(DropApology(s, ApologyUnable), ApologyNoAccess), ApologyNeedAudio)
  }

  /** The chain of six replacements and the final `.trim()`, in the source's order. */
  function Cleanup(text: string): (r: string)
    ensures |r| <= |text|
    ensures r == [] || (!IsWhiteSpace(r[0]) && !IsWhiteSpace(r[|r| - 1]))
  {
    Trim(DropApologies(StripBoilerplate(text)))
  }

  /** The text `transcribeAudio` returns for a response: the cleaned text, or "" for no speech. */
  function TranscriptionText(text: string): (r: string)
    ensures r == [] || (Trim(r) == r && !Contains(Lower(r), UnableMarker))
    ensures r != [] <==> Cleanup(text) != [] && !Contains(Lower(Cleanup(text)), UnableMarker)
    ensures r != [] ==> r == Cleanup(text)
  {
    var cleaned := Cleanup(text);
    if cleaned == [] || Contains(Lower(cleaned), UnableMarker) then []
    else
      TrimIdempotent(cleaned);
      cleaned
  }

  /** `transcribeAudio`, given whether a client exists and what the model call gave back. */
  function TranscribeAudio(hasClient: bool, reply: ModelReply): (r: Outcome<string>)
    ensures !hasClient ==> r == Threw(DisabledMessage)
    ensures r.Threw? ==> r.message == DisabledMessage || r.message == TooLongMessage
    ensures r.Returned? ==> r.value == [] || (Trim(r.value) == r.value && !Contains(Lower(r.value), UnableMarker))
    ensures hasClient && reply.Failed? ==>
      (r.Threw? <==> reply.message.Some? && Contains(reply.message.value, "400"))
    ensures hasClient && reply.Failed? && r.Returned? ==> r.value == []
    ensures hasClient && reply.Reply? ==> r == Returned(TranscriptionText(reply.text))
  {
    if !hasClient then Threw(DisabledMessage)
    else match reply
      case Reply(text) => Returned(TranscriptionText(text))
      case Failed(message) =>
        if message.Some? && Contains(message.value, "400") then Threw(TooLongMessage)
        else Returned([])
  }

  /**
   * "Here's ..." is stripped up to and including the first ':' of the first
   * line, and nothing beyond it.
   */
  lemma HeresStripsToFirstColon(s: string, j: nat)
    requires StartsWithIgnoreCase(s, PrefixHeres)
    requires |PrefixHeres| <= j < |s| && s[j] == ':'
    requires forall k :: |PrefixHeres| <= k < j ==> s[k] != ':' && !IsLineTerminator(s[k])
    ensures StripHeres(s) == s[j + 1..]
  {
    ColonOnLineIs(s, |PrefixHeres|, j);
  }

  /** The search stops at the first ':' when no line ends before it. */
  lemma {:induction false} ColonOnLineIs(s: string, from: nat, j: nat)
    requires from <= j < |s| && s[j] == ':'
    requires forall k :: from <= k < j ==> s[k] != ':' && !IsLineTerminator(s[k])
    ensures ColonOnLine(s, from) == Some(j)
    decreases j - from
  {
    if from < j {
      ColonOnLineIs(s, from + 1, j);
    }
  }

  /** Every strip works at the very start only: each one leaves a suffix of its input. */
  lemma {:induction false} CleanupKeepsASuffix(text: string)
    ensures var s3 := StripBoilerplate(text);
            |s3| <= |text| && s3 == text[|text| - |s3|..]
  {
    var s1 := StripHeres(text);
    var s2 := StripPrefix(s1, PrefixTranscription);
    var s3 := StripPrefix(s2, PrefixAudioSays);
    SuffixOfSuffix(text, s1, s2);
    SuffixOfSuffix(text, s2, s3);
  }

  /** No boilerplate at the start: the response is only trimmed (a phrase later in the text is kept). */
  lemma NoBoilerplateOnlyTrims(text: string)
    requires !StartsWithIgnoreCase(text, PrefixHeres)
    requires !StartsWithIgnoreCase(text, PrefixTranscription)
    requires !StartsWithIgnoreCase(text, PrefixAudioSays)
    requires !StartsWithIgnoreCase(text, ApologyUnable)
    requires !StartsWithIgnoreCase(text, ApologyNoAccess)
    requires !StartsWithIgnoreCase(text, ApologyNeedAudio)
    ensures Cleanup(text) == Trim(text)
  {
  }

  /**
   * An answer with none of the six phrases at its start, a non-blank trim and
   * no "unable to transcribe" in it is returned trimmed and otherwise as it is.
   */
  lemma PlainAnswerTranscribed(text: string)
    requires !StartsWithIgnoreCase(text, PrefixHeres)
    requires !StartsWithIgnoreCase(text, PrefixTranscription)
    requires !StartsWithIgnoreCase(text, PrefixAudioSays)
    requires !StartsWithIgnoreCase(text, ApologyUnable)
    requires !StartsWithIgnoreCase(text, ApologyNoAccess)
    requires !StartsWithIgnoreCase(text, ApologyNeedAudio)
    requires Trim(text) != [] && !Contains(Lower(Trim(text)), UnableMarker)
    ensures TranscribeAudio(true, Reply(text)) == Returned(Trim(text))
  {
    NoBoilerplateOnlyTrims(text);
  }

  /** The `k`-th character of a case-insensitive prefix match, folded. */
  lemma FoldedAt(s: string, prefix: string, k: nat)
    requires StartsWithIgnoreCase(s, prefix) && k < |prefix|
    ensures LowerChar(s[k]) == LowerChar(prefix[k])
  {
  }

  /** A string that disagrees with `q` (up to case) at `k` does not start with `q`. */
  lemma DiffersAt(s: string, q: string, k: nat)
    requires k < |s| && k < |q| && LowerChar(s[k]) != LowerChar(q[k])
    ensures !StartsWithIgnoreCase(s, q)
  {
    if StartsWithIgnoreCase(s, q) {
      FoldedAt(s, q, k);
    }
  }

  /** A response starting with 'i' or 'I' passes the three boilerplate strips unchanged. */
  lemma NoBoilerplateBeforeI(text: string)
    requires |text| > 0 && LowerChar(text[0]) == 'i'
    ensures StripBoilerplate(text) == text
  {
    DiffersAt(text, PrefixHeres, 0);
    assert StripHeres(text) == text;
    DiffersAt(text, PrefixTranscription, 0);
    DiffersAt(text, PrefixAudioSays, 0);
  }

  /** `.replace(/^apology.*$/i, '')` on a string that does not start with `apology`. */
  lemma ApologyKept(s: string, apology: string, k: nat)
    requires k < |s| && k < |apology| && LowerChar(s[k]) != LowerChar(apology[k])
    ensures DropApology(s, apology) == s
  {
    DiffersAt(s, apology, k);
  }

  /** The apology steps after the one that matched see "" and leave it. */
  lemma EmptyStaysEmpty()
    ensures DropApology([], ApologyNoAccess) == []
    ensures DropApology([], ApologyNeedAudio) == []
    ensures Trim([]) == []
  {
  }

  /** The cleanup turns a one-line "I'm unable to transcribe ..." into "". */
  lemma UnableCleanedAway(text: string)
    requires StartsWithIgnoreCase(text, ApologyUnable) && SingleLine(text[|ApologyUnable|..])
    ensures Cleanup(text) == []
  {
    FoldedAt(text, ApologyUnable, 0);
    NoBoilerplateBeforeI(text);
    EmptyStaysEmpty();
    assert DropApologies(text) == [];
  }

  /** The cleanup turns a one-line "I don't have access ..." into "". */
  lemma NoAccessCleanedAway(text: string)
    requires StartsWithIgnoreCase(text, ApologyNoAccess) && SingleLine(text[|ApologyNoAccess|..])
    ensures Cleanup(text) == []
  {
    FoldedAt(text, ApologyNoAccess, 0);
    NoBoilerplateBeforeI(text);
    EmptyStaysEmpty();
    FoldedAt(text, ApologyNoAccess, 2);
    ApologyKept(text, ApologyUnable, 2);
    assert DropApology(text, ApologyNoAccess) == [];
    assert DropApologies(text) == [];
  }

  /** The cleanup turns a one-line "I need the audio ..." into "". */
  lemma NeedAudioCleanedAway(text: string)
    requires StartsWithIgnoreCase(text, ApologyNeedAudio) && SingleLine(text[|ApologyNeedAudio|..])
    ensures Cleanup(text) == []
  {
    FoldedAt(text, ApologyNeedAudio, 0);
    NoBoilerplateBeforeI(text);
    EmptyStaysEmpty();
    FoldedAt(text, ApologyNeedAudio, 2);
    ApologyKept(text, ApologyUnable, 2);
    ApologyKept(text, ApologyNoAccess, 2);
    assert DropApology(text, ApologyNeedAudio) == [];
    assert DropApologies(text) == [];
  }

  /**
   * A one-line response that begins with one of the three apologies is
   * treated as silence: `transcribeAudio` returns "".
   */
  lemma ApologyIsSilence(text: string, apology: string)
    requires apology == ApologyUnable || apology == ApologyNoAccess || apology == ApologyNeedAudio
    requires StartsWithIgnoreCase(text, apology) && SingleLine(text[|apology|..])
    ensures TranscribeAudio(true, Reply(text)) == Returned([])
  {
    if apology == ApologyUnable {
      UnableCleanedAway(text);
    } else if apology == ApologyNoAccess {
      NoAccessCleanedAway(text);
    } else {
      NeedAudioCleanedAway(text);
    }
    assert TranscriptionText(text) == [];
  }

  // ---------------------------------------------------------------- summarizeTranscriptChunk

  const NoContentMessage := "No meaningful content found."
  const CleanFailedMessage := "Failed to clean this segment."
  const UnavailableMessage := "AI unavailable."

  /** `summarizeTranscriptChunk`: the trimmed answer, or a fixed sentence; never "". */
  function SummarizeTranscriptChunk(hasClient: bool, reply: ModelReply): (r: string)
    ensures r != []
    ensures !hasClient ==> r == UnavailableMessage
    ensures hasClient && reply.Failed? ==> r == CleanFailedMessage
    ensures hasClient && reply.Reply? ==>
      if Blank(reply.text) then r == NoContentMessage else r == Trim(reply.text)
  {
    if !hasClient then UnavailableMessage
    else match reply
      case Failed(_) => CleanFailedMessage
      case Reply(text) =>
        var t := Trim(text);
        if t == [] then NoContentMessage else t
  }

  // ---------------------------------------------------------------- extractActionItems

  const ActionItemsFailedMessage := "Failed to extract action items."

  /** `line.trim()` is truthy. */
  predicate NotBlank(line: string)
  {
    Trim(line) != []
  }

  /** `extractActionItems`: the non-blank lines of the answer, each untrimmed. */
  function ExtractActionItems(hasClient: bool, reply: ModelReply): (r: seq<string>)
    ensures !hasClient ==> r == [UnavailableMessage]
    ensures hasClient && reply.Failed? ==> r == [ActionItemsFailedMessage]
    ensures hasClient && reply.Reply? ==> forall k :: 0 <= k < |r| ==> '\n' !in r[k] && !Blank(r[k])
  {
    if !hasClient then [UnavailableMessage]
    else match reply
      case Failed(_) => [ActionItemsFailedMessage]
      case Reply(text) => Filter(NotBlank, Split(text, '\n'))
  }

  /**
   * The action items are the answer's '\n'-separated lines in their order,
   * every non-blank line exactly as often as it occurs and no blank line;
   * joining the lines back gives the answer.
   */
  lemma ActionItemsAreTheNonBlankLines(text: string)
    ensures var lines := Split(text, '\n');
            var items := ExtractActionItems(true, Reply(text));
            && Join(lines, "\n") == text
            && IsSubsequence(items, lines)
            && forall line :: multiset(items)[line] == if Blank(line) then 0 else multiset(lines)[line]
  {
    var lines := Split(text, '\n');
    var items := Filter(NotBlank, lines);
    assert ExtractActionItems(true, Reply(text)) == items;
    JoinSplit(text, '\n');
    FilterIsSubsequence(NotBlank, lines);
    forall line
      ensures multiset(items)[line] == if Blank(line) then 0 else multiset(lines)[line]
    {
      FilterCounts(NotBlank, lines, line);
      assert NotBlank(line) <==> !Blank(line);
    }
  }

  // ---------------------------------------------------------------- generateMeetingInsights

  /** A value produced by `JSON.parse`. */
  datatype Json =
    | JNull
    | JBool(b: bool)
    | JNumber(n: real)
    | JString(str: string)
    | JArray(items: seq<Json>)
    | JObject(fields: map<string, Json>)

  /** The insights record handed back to the caller. */
  datatype Insights = Insights(sentiment: string, keyTopics: seq<Json>, decisions: seq<Json>)

  const Sentiments: seq<string> := ["positive", "neutral", "negative"]
  const Neutral := "neutral"

  /** Returned when no client exists. */
  const AiUnavailable := Insights(Neutral, [JString("AI unavailable")], [JString("AI unavailable")])
  /** Returned when the call, the parse or the structure check fails. */
  const CouldNotAnalyze := Insights(Neutral, [JString("Could not analyze")], [JString("Could not analyze")])

  /** `value.key`: None stands for `undefined` (a missing key, or a value that is not an object). */
  function Property(value: Json, key: string): Option<Json>
  {
    if value.JObject? && key in value.fields then Some(value.fields[key]) else None
  }

  /** JavaScript truthiness; `undefined` is falsy. */
  predicate Truthy(v: Option<Json>)
  {
    match v
    case None => false
    case Some(JNull) => false
    case Some(JBool(b)) => b
    case Some(JNumber(n)) => n != 0.0
    case Some(JString(s)) => s != []
    case Some(_) => true
  }

  predicate IsArray(v: Option<Json>)
  {
    v.Some? && v.value.JArray?
  }

  /** The structure check passes: a truthy sentiment and two arrays. */
  predicate WellFormed(value: Json)
  {
    Truthy(Property(value, "sentiment")) && IsArray(Property(value, "keyTopics")) && IsArray(Property(value, "decisions"))
  }

  /** The allowed sentiment the parsed one stands for: itself when allowed, otherwise "neutral". */
  function NormalizeSentiment(v: Json): (r: string)
    ensures r in Sentiments
    ensures v.JString? && v.str in Sentiments ==> r == v.str
    ensures !(v.JString? && v.str in Sentiments) ==> r == Neutral
  {
    if v.JString? && v.str in Sentiments then v.str else Neutral
  }

  /** The structure check and the sentiment repair on a parsed value; None where the check throws. */
  function Validate(value: Json): (r: Option<Insights>)
    ensures r.Some? <==> WellFormed(value)
    ensures r.Some? ==> r.value.sentiment == NormalizeSentiment(Property(value, "sentiment").value)
    ensures r.Some? ==> r.value.keyTopics == Property(value, "keyTopics").value.items
    ensures r.Some? ==> r.value.decisions == Property(value, "decisions").value.items
  {
    if WellFormed(value) then
      Some(Insights(NormalizeSentiment(Property(value, "sentiment").value),
                    Property(value, "keyTopics").value.items,
                    Property(value, "decisions").value.items))
    else None
  }

  /**
   * `.replace(/```json|```/g, '')`: left to right, "```json" tried before "```".
   */
  function StripFences(s: string): (r: string)
    ensures |r| <= |s|
    decreases |s|
  {
    if StartsWith(s, "```json") then StripFences(s[7..])
    else if StartsWith(s, "```") then StripFences(s[3..])
    else if s == [] then []
    else [s[0]] + StripFences(s[1..])
  }

  /** The replacement of the leading run of non-'{' characters: everything before the first '{' goes (all of it when there is none). */
  function FromFirstBrace(s: string): string
  {
    match IndexOf(s, '{')
    case Some(i) => s[i..]
    case None => []
  }

  /** `.replace(/[^}]*$/, '')`: everything after the last '}' goes (all of it when there is none). */
  function ToLastBrace(s: string): string
  {
    match LastIndexOf(s, '}')
    case Some(j) => s[..j + 1]
    case None => []
  }

  /**
   * The cleaned text handed to `JSON.parse`: "" or exactly the span of the
   * fence-stripped text from its first '{' to its last '}', so it starts with
   * '{' and ends with '}'.
   */
  function CleanJson(raw: string): (r: string)
    ensures r == BraceSpan(StripFences(raw))
    ensures r == [] || (r[0] == '{' && r[|r| - 1] == '}')
  {
    var f := StripFences(raw);
    CutToBraces(f);
    TrimmedIsFixed(BraceSpan(f));
    Trim(ToLastBrace(FromFirstBrace(f)))
  }

  /** Only text led by a backtick goes: a text without one is kept whole. */
  lemma {:induction false} NoTickKeptWhole(s: string)
    requires !Contains(s, "`")
    ensures StripFences(s) == s
    decreases |s|
  {
    if s != [] {
      assert !StartsWith(s, "`");
      NoTickKeptWhole(s[1..]);
      assert [s[0]] + s[1..] == s;
    }
  }

  /** A string that does not start with '`' keeps that property through fence stripping. */
  lemma NoTickStart(s: string)
    requires !StartsWith(s, "`")
    ensures !StartsWith(StripFences(s), "`")
  {
  }

  /** A string that does not start with two '`' keeps that property through fence stripping. */
  lemma NoDoubleTickStart(s: string)
    requires !StartsWith(s, "``")
    ensures !StartsWith(StripFences(s), "``")
  {
    if s != [] && s[0] == '`' {
      assert !StartsWith(s[1..], "`");
      NoTickStart(s[1..]);
    }
  }

  /** After fence stripping no "```" is left anywhere, including one formed by the removals. */
  lemma {:induction false} NoFenceLeft(s: string)
    ensures !Contains(StripFences(s), "```")
    decreases |s|
  {
    if StartsWith(s, "```json") {
      NoFenceLeft(s[7..]);
    } else if StartsWith(s, "```") {
      NoFenceLeft(s[3..]);
    } else if s != [] {
      NoFenceLeft(s[1..]);
      var rest := StripFences(s[1..]);
      assert StripFences(s) == [s[0]] + rest;
      if s[0] == '`' {
        assert !StartsWith(s[1..], "``");
        NoDoubleTickStart(s[1..]);
      }
      assert ([s[0]] + rest)[1..] == rest;
    }
  }

  /** The last '}' of a suffix that starts at or before the last '}' of the whole. */
  lemma LastBraceOfSuffix(f: string, i: nat, j: nat)
    requires i <= j && LastIndexOf(f, '}') == Some(j)
    ensures LastIndexOf(f[i..], '}') == Some(j - i)
  {
    var g := f[i..];
    LastIndexOfIsLast(f, '}');
    forall m | j - i < m < |g|
      ensures g[m] != '}'
    {
      assert g[m] == f[i + m];
    }
    LastIndexOfUnique(g, '}', j - i);
  }

  /** A suffix that starts after the last '}' holds none. */
  lemma NoBraceAfterLast(f: string, i: nat, j: nat)
    requires j < i <= |f| && LastIndexOf(f, '}') == Some(j)
    ensures '}' !in f[i..]
  {
    LastIndexOfIsLast(f, '}');
    forall m | 0 <= m < |f| - i
      ensures f[i..][m] != '}'
    {
      assert f[i..][m] == f[i + m];
    }
  }

  /** The span from the first '{' to the last '}' of `f`; "" when either is missing or they are out of order. */
  function BraceSpan(f: string): (r: string)
    ensures r == [] || (r[0] == '{' && r[|r| - 1] == '}')
  {
    var open := IndexOf(f, '{');
    var close := LastIndexOf(f, '}');
    if open.Some? && close.Some? && open.value < close.value then f[open.value..close.value + 1] else []
  }

  /** With a '{' before the last '}', the two replacements keep exactly the span between them. */
  lemma CutOrdered(f: string, i: nat, j: nat)
    requires IndexOf(f, '{') == Some(i) && LastIndexOf(f, '}') == Some(j) && i < j
    ensures ToLastBrace(FromFirstBrace(f)) == BraceSpan(f) == f[i..j + 1]
  {
    LastBraceOfSuffix(f, i, j);
    CutBothAt(f, i, j);
  }

  /** The two replacements, once both positions are known. */
  lemma CutBothAt(f: string, i: nat, j: nat)
    requires IndexOf(f, '{') == Some(i) && i <= j < |f| && LastIndexOf(f[i..], '}') == Some(j - i)
    ensures ToLastBrace(FromFirstBrace(f)) == f[i..j + 1]
  {
    FromFirstBraceAt(f, i);
    ToLastBraceOfSuffix(f, i, j);
  }

  /** Cutting a suffix after its last '}', once that position is known. */
  lemma ToLastBraceOfSuffix(f: string, i: nat, j: nat)
    requires i <= j < |f| && LastIndexOf(f[i..], '}') == Some(j - i)
    ensures ToLastBrace(f[i..]) == f[i..j + 1]
  {
    ToLastBraceAt(f[i..], j - i);
    PrefixOfSuffix(f, i, j - i + 1);
  }

  lemma FromFirstBraceAt(f: string, i: nat)
    requires IndexOf(f, '{') == Some(i)
    ensures FromFirstBrace(f) == f[i..]
  {
  }

  lemma ToLastBraceAt(g: string, k: nat)
    requires LastIndexOf(g, '}') == Some(k)
    ensures ToLastBrace(g) == g[..k + 1]
  {
  }

  /** With the first '{' after the last '}', nothing is left. */
  lemma CutCrossed(f: string, i: nat, j: nat)
    requires IndexOf(f, '{') == Some(i) && LastIndexOf(f, '}') == Some(j) && j <= i
    ensures ToLastBrace(FromFirstBrace(f)) == BraceSpan(f) == []
  {
    assert f[i] != f[j];
    assert FromFirstBrace(f) == f[i..];
    NoBraceAfterLast(f, i, j);
  }

  /** Without any '}', cutting after the first '{' leaves nothing. */
  lemma CutUnclosed(f: string, i: nat)
    requires IndexOf(f, '{') == Some(i) && LastIndexOf(f, '}').None?
    ensures ToLastBrace(FromFirstBrace(f)) == BraceSpan(f) == []
  {
    assert FromFirstBrace(f) == f[i..];
    LastIndexOfIsLast(f, '}');
    forall m | 0 <= m < |f| - i
      ensures f[i..][m] != '}'
    {
      assert f[i..][m] == f[i + m];
    }
  }

  /** Without any '{', nothing is left. */
  lemma CutUnopened(f: string)
    requires IndexOf(f, '{').None?
    ensures ToLastBrace(FromFirstBrace(f)) == BraceSpan(f) == []
  {
    assert FromFirstBrace(f) == [];
  }

  /** Both replacements together cut `f` down to its brace span. */
  lemma CutToBraces(f: string)
    ensures ToLastBrace(FromFirstBrace(f)) == BraceSpan(f)
  {
    var open := IndexOf(f, '{');
    var close := LastIndexOf(f, '}');
    if open.None? {
      CutUnopened(f);
    } else if close.None? {
      CutUnclosed(f, open.value);
    } else if open.value < close.value {
      CutOrdered(f, open.value, close.value);
    } else {
      CutCrossed(f, open.value, close.value);
    }
  }

  /** `generateMeetingInsights`. */
  function GenerateMeetingInsights(hasClient: bool, reply: ModelReply, parse: string -> Option<Json>): (r: Insights)
    ensures r.sentiment in Sentiments
    ensures !hasClient ==> r == AiUnavailable
    ensures hasClient && reply.Failed? ==> r == CouldNotAnalyze
  {
    if !hasClient then AiUnavailable
    else match reply
      case Failed(_) => CouldNotAnalyze
      case Reply(raw) =>
        match parse(CleanJson(raw))
        case None => CouldNotAnalyze
        case Some(value) => Validate(value).GetOr(CouldNotAnalyze)
  }

  /**
   * A parsed answer that passes the structure check keeps its topics and
   * decisions; its sentiment is kept when allowed and becomes "neutral"
   * otherwise. Anything else, a failed parse included, gives the
   * "Could not analyze" record.
   */
  lemma InsightsFromParsedAnswer(raw: string, parse: string -> Option<Json>)
    ensures var r := GenerateMeetingInsights(true, Reply(raw), parse);
            var parsed := parse(CleanJson(raw));
            if parsed.Some? && WellFormed(parsed.value) then
              var s := Property(parsed.value, "sentiment").value;
              && r.keyTopics == Property(parsed.value, "keyTopics").value.items
              && r.decisions == Property(parsed.value, "decisions").value.items
              && (if s.JString? && s.str in Sentiments then r.sentiment == s.str else r.sentiment == Neutral)
            else r == CouldNotAnalyze
  {
    var parsed := parse(CleanJson(raw));
    var r := GenerateMeetingInsights(true, Reply(raw), parse);
    if parsed.Some? && WellFormed(parsed.value) {
      var v := parsed.value;
      assert r == Validate(v).value;
      assert r.sentiment == NormalizeSentiment(Property(v, "sentiment").value);
    } else {
      assert parsed.Some? ==> Validate(parsed.value).None?;
    }
  }
}
