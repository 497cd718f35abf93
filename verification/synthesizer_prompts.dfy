/**
  Building the synthesizer's prompt: the three input checks, the
  serialization of the tool results (an abstract input here), the
  truncation of the serialized text to `MaxToolResultsLength` characters,
  the line that lists the sources, and the fixed prompt text around them.
 */
module SynthesizerPrompts {
  import opened Wrappers
  import opened JsonValue

  /** Maximum number of characters of serialized tool results shown in the prompt. */
  const MaxToolResultsLength: nat := 3000

  /** Appended when, and only when, the serialized tool results were cut. */
  const TruncationMarker := "..."

  const SourceSeparator := ", "
  const NoSources := "Aucune"

  const QuestionMessage := "question must be a non-empty string"
  const ToolResultsMessage := "tool_results must be a dictionary"
  const SourcesMessage := "sources must be a list"
  const SerializationPrefix := "Failed to serialize tool_results: "

  /** The exceptions the builder raises, each with its message. */
  datatype Error =
    | ValueError(message: string)
    | RuntimeError(message: string)
    | TypeError(message: string)

  /**
    What `json.dumps(tool_results, indent=2, default=str)` gives: the
    serialized text, or the text of the TypeError or ValueError it raised.
   */
  datatype Dump = Dumped(text: string) | DumpFailed(reason: string)

  // ---------------------------------------------------------------------
  // Truncation

  function Min(a: nat, b: nat): nat
  {
    if a <= b then a else b
  }

  /** The serialized tool results as shown in the prompt. */
  function DisplayText(serialized: string): (shown: string)
    ensures |serialized| <= MaxToolResultsLength ==> shown == serialized
    ensures |serialized| > MaxToolResultsLength ==>
      |shown| == MaxToolResultsLength + |TruncationMarker|
      && shown[..MaxToolResultsLength] == serialized[..MaxToolResultsLength]
      && shown[MaxToolResultsLength..] == TruncationMarker
    ensures |shown| <= MaxToolResultsLength + |TruncationMarker|
    ensures var kept := Min(|serialized|, MaxToolResultsLength);
      kept <= |shown| && shown[..kept] == serialized[..kept]
  {
    if |serialized| > MaxToolResultsLength then
      serialized[..MaxToolResultsLength] + TruncationMarker
    else
      serialized
  }

  /**
    Two serializations are shown alike exactly when they are equal and fit,
    or both are too long and agree on their first `MaxToolResultsLength`
    characters: nothing below the limit is lost.
   */
  lemma DisplayTextAgreement(s: string, t: string)
    ensures DisplayText(s) == DisplayText(t) <==>
      (|s| <= MaxToolResultsLength && |t| <= MaxToolResultsLength && s == t)
      || (|s| > MaxToolResultsLength && |t| > MaxToolResultsLength
          && s[..MaxToolResultsLength] == t[..MaxToolResultsLength])
  {
  }

  // ---------------------------------------------------------------------
  // The sources line

  /** `sep.join(parts)`. */
  function Join(parts: seq<string>, sep: string): (joined: string)
    ensures parts == [] ==> joined == ""
    ensures |parts| > 0 ==> |parts[0]| <= |joined| && joined[..|parts[0]|] == parts[0]
  {
    if |parts| == 0 then ""
    else if |parts| == 1 then parts[0]
    else parts[0] + sep + Join(parts[1..], sep)
  }

  /** Where `parts[i]` starts in `Join(parts, sep)`: every earlier part and its separator come first. */
  function Offset(parts: seq<string>, sep: string, i: nat): nat
    requires i <= |parts|
  {
    if i == 0 then 0 else |parts[0]| + |sep| + Offset(parts[1..], sep, i - 1)
  }

  /** The next offset is past the part and its separator. */
  lemma {:induction false} OffsetNext(parts: seq<string>, sep: string, i: nat)
    requires i < |parts|
    ensures Offset(parts, sep, i + 1) == Offset(parts, sep, i) + |parts[i]| + |sep|
  {
    if i > 0 {
      OffsetNext(parts[1..], sep, i - 1);
    }
  }

  /** The joined text holds each part at its offset. */
  lemma {:induction false} JoinPartAt(parts: seq<string>, sep: string, i: nat)
    requires i < |parts|
    ensures Offset(parts, sep, i) + |parts[i]| <= |Join(parts, sep)|
    ensures Join(parts, sep)[Offset(parts, sep, i)..Offset(parts, sep, i) + |parts[i]|] == parts[i]
  {
    if |parts| > 1 {
      var prefix, tail := parts[0] + sep, Join(parts[1..], sep);
      assert Join(parts, sep) == prefix + tail;
      if i > 0 {
        JoinPartAt(parts[1..], sep, i - 1);
        var k := Offset(parts[1..], sep, i - 1);
        assert parts[i] == parts[1..][i - 1];
        assert Offset(parts, sep, i) == |prefix| + k;
        SliceShift(prefix, tail, k, k + |parts[i]|);
      } else {
        assert (prefix + tail)[..|parts[0]|] == prefix[..|parts[0]|];
      }
    }
  }

  /** Each part but the last is followed by the separator. */
  lemma {:induction false} JoinSeparatorAfter(parts: seq<string>, sep: string, i: nat)
    requires i + 1 < |parts|
    ensures Offset(parts, sep, i + 1) == Offset(parts, sep, i) + |parts[i]| + |sep|
    ensures Offset(parts, sep, i + 1) <= |Join(parts, sep)|
    ensures Join(parts, sep)[Offset(parts, sep, i) + |parts[i]|..Offset(parts, sep, i + 1)] == sep
  {
    OffsetNext(parts, sep, i);
    var prefix, tail := parts[0] + sep, Join(parts[1..], sep);
    assert Join(parts, sep) == prefix + tail;
    if i > 0 {
      JoinSeparatorAfter(parts[1..], sep, i - 1);
      OffsetNext(parts[1..], sep, i - 1);
      var m := Offset(parts[1..], sep, i - 1) + |parts[i]|;
      SliceShift(prefix, tail, m, m + |sep|);
    }
  }

  /** The last part ends the joined text. */
  lemma {:induction false} JoinLength(parts: seq<string>, sep: string)
    requires |parts| > 0
    ensures Offset(parts, sep, |parts| - 1) + |parts[|parts| - 1]| == |Join(parts, sep)|
  {
    if |parts| > 1 {
      var tail := parts[1..];
      JoinLength(tail, sep);
      assert parts[|parts| - 1] == tail[|tail| - 1];
      assert Offset(parts, sep, |parts| - 1) == |parts[0]| + |sep| + Offset(tail, sep, |tail| - 1);
      assert |Join(parts, sep)| == |parts[0]| + |sep| + |Join(tail, sep)|;
    }
  }

  lemma SliceShift(x: string, y: string, k: nat, m: nat)
    requires k <= m <= |y|
    ensures (x + y)[|x| + k..|x| + m] == y[k..m]
  {
  }

  /** Joining two non-empty lists is joining each and putting the separator between them. */
  lemma {:induction false} JoinAppend(a: seq<string>, b: seq<string>, sep: string)
    requires |a| > 0 && |b| > 0
    ensures Join(a + b, sep) == Join(a, sep) + sep + Join(b, sep)
  {
    if |a| == 1 {
      assert (a + b)[1..] == b;
    } else {
      assert (a + b)[1..] == a[1..] + b;
      JoinAppend(a[1..], b, sep);
    }
  }

  predicate AllStrings(items: seq<Value>)
  {
    forall i :: 0 <= i < |items| ==> items[i].Str?
  }

  /** The texts of a list of strings. */
  function Texts(items: seq<Value>): (texts: seq<string>)
    requires AllStrings(items)
    ensures |texts| == |items|
    ensures forall i :: 0 <= i < |items| ==> items[i] == Str(texts[i])
  {
    seq(|items|, i requires 0 <= i < |items| => items[i].s)
  }

  /** The first item that is not a string, which `join` reports. */
  function FirstNonString(items: seq<Value>): (i: nat)
    requires !AllStrings(items)
    ensures i < |items| && !items[i].Str?
    ensures forall j :: 0 <= j < i ==> items[j].Str?
  {
    if !items[0].Str? then 0 else 1 + FirstNonString(items[1..])
  }

  /** The decimal digits of `n`. */
  function NatToString(n: nat): string
  {
    var digit := ["0", "1", "2", "3", "4", "5", "6", "7", "8", "9"][n % 10];
    if n < 10 then digit else NatToString(n / 10) + digit
  }

  /**
    `', '.join(sources) if sources else 'Aucune'`: the join raises a
    TypeError naming the first item that is not a string.
   */
  function SourcesLine(sources: seq<Value>): (r: Result<string, Error>)
    ensures sources == [] ==> r == Success(NoSources)
    ensures sources != [] && AllStrings(sources) ==> r == Success(Join(Texts(sources), SourceSeparator))
    ensures r.Failure? <==> !AllStrings(sources)
    ensures r.Failure? ==> r.error.TypeError?
    ensures !AllStrings(sources) ==>
      r == Failure(TypeError("sequence item " + NatToString(FirstNonString(sources))
                             + ": expected str instance, "
                             + TypeName(sources[FirstNonString(sources)]) + " found"))
  {
    if sources == [] then Success(NoSources)
    else if AllStrings(sources) then Success(Join(Texts(sources), SourceSeparator))
    else
      var i := FirstNonString(sources);
      Failure(TypeError("sequence item " + NatToString(i) + ": expected str instance, "
                        + TypeName(sources[i]) + " found"))
  }

  /** With only strings, the sources line lists every source in order, each but the last followed by ", ". */
  lemma SourcesLineLists(sources: seq<Value>, i: nat)
    requires sources != [] && AllStrings(sources) && i < |sources|
    ensures SourcesLine(sources).Success?
    ensures var line, texts := SourcesLine(sources).value, Texts(sources);
      && Offset(texts, SourceSeparator, i) + |sources[i].s| <= |line|
      && line[Offset(texts, SourceSeparator, i)..Offset(texts, SourceSeparator, i) + |sources[i].s|] == sources[i].s
  {
    JoinPartAt(Texts(sources), SourceSeparator, i);
  }

  /** A single source named "Aucune" gives the same line as no source at all. */
  lemma NoSourcesIsAmbiguous()
    ensures SourcesLine([Str(NoSources)]) == SourcesLine([])
  {
  }

  // ---------------------------------------------------------------------
  // The prompt

  const Preamble := "Tu es Albert Query, un assistant spécialisé dans l'analyse de données cinématographiques.\n\nQUESTION DE L'UTILISATEUR: \""
  const QuestionClose := "\"\n\nDONNÉES DISPONIBLES:\n"
  const SourcesLabel := "\n\nSOURCES UTILISÉES: "

  /** The fixed instructions that end every prompt, line by line. */
  const InstructionLines: seq<string> := [
    "",
    "",
    "INSTRUCTIONS STRICTES POUR TA RÉPONSE:",
    "",
    "1. STRUCTURE DE RÉPONSE (TOUJOURS RESPECTER):",
    "   - Commence par une réponse directe et précise",
    "   - Présente les données de façon structurée (listes à puces, numérotation)",
    "   - Termine par un complément d'information si pertinent",
    "",
    "2. PRÉSENTATION DES DONNÉES:",
    "   - Nombres: Utilise toujours le format français (1 234 au lieu de 1,234)",
    "   - Listes: Maximum 5 items, triés par pertinence",
    "   - Titres de films: Toujours en gras (**Titre**)",
    "   - Années: Format YYYY entre parenthèses",
    "",
    "3. STYLE ET TON:",
    "   - Professionnel mais accessible",
    "   - Phrases courtes et directes",
    "   - Vocabulaire précis (évite \"environ\", \"peut-être\")",
    "   - Tutoiement naturel",
    "",
    "4. RÈGLES ABSOLUES:",
    "   - Ne JAMAIS inventer de données",
    "   - Si donnée manquante: dire clairement \"non disponible dans les données\"",
    "   - Citer les chiffres exacts (pas d'arrondis approximatifs)",
    "   - Répondre en français uniquement",
    "",
    "5. FORMAT POUR QUESTIONS FRÉQUENTES:",
    "   - \"Combien de...\": Donner le nombre exact en premier",
    "   - \"Montre-moi...\": Vérifier si les données existent avant de répondre",
    "   - \"Propose...\": Lister 3-5 résultats maximum avec critères de sélection",
    "",
    "EXEMPLE DE RÉPONSE:",
    "Question: \"Combien de genres y a-t-il ?\"",
    "Réponse: \"Il y a **28 genres** différents dans la base de données.",
    "",
    "Les plus représentés sont :",
    "• Action (1 234 films)",
    "• Drame (1 098 films)",
    "• Comédie (987 films)\"",
    "",
    "NE PAS:",
    "- Donner des listes trop longues (max 5 items)",
    "- Utiliser un langage trop technique",
    "- Répéter la question dans la réponse",
    "- Ajouter des informations non présentes dans les données",
    ""
  ]

  const LineBreak := "\n"

  const Instructions := Join(InstructionLines, LineBreak)

  /** The prompt text around the question, the shown tool results and the sources line. */
  function Prompt(question: string, shown: string, sourcesLine: string): (p: string)
    ensures |p| == |Preamble| + |question| + |QuestionClose| + |shown| + |SourcesLabel|
                   + |sourcesLine| + |Instructions|
  {
    Preamble + question + QuestionClose + shown + SourcesLabel + sourcesLine + Instructions
  }

  predicate IsNonEmptyString(v: Value)
  {
    v.Str? && |v.s| > 0
  }

  /** The three input checks pass. */
  predicate ValidInputs(question: Value, toolResults: Value, sources: Value)
  {
    IsNonEmptyString(question) && toolResults.Obj? && sources.Arr?
  }

  /**
    `build_synthesizer_prompt`. The checks run in order (question, then
    tool results, then sources) and each raises a ValueError; a failed
    serialization raises a RuntimeError; a source that is not a string
    makes the join raise a TypeError.
   */
  function BuildSynthesizerPrompt(question: Value, toolResults: Value, sources: Value, dump: Dump)
    : (r: Result<string, Error>)
    ensures r == Failure(ValueError(QuestionMessage)) <==> !IsNonEmptyString(question)
    ensures r == Failure(ValueError(ToolResultsMessage)) <==> IsNonEmptyString(question) && !toolResults.Obj?
    ensures r == Failure(ValueError(SourcesMessage)) <==>
      IsNonEmptyString(question) && toolResults.Obj? && !sources.Arr?
    ensures (r.Failure? && r.error.ValueError?) <==> !ValidInputs(question, toolResults, sources)
    ensures (r.Failure? && r.error.RuntimeError?) <==>
      ValidInputs(question, toolResults, sources) && dump.DumpFailed?
    ensures ValidInputs(question, toolResults, sources) && dump.DumpFailed? ==>
      r == Failure(RuntimeError(SerializationPrefix + dump.reason))
    ensures (r.Failure? && r.error.TypeError?) <==>
      ValidInputs(question, toolResults, sources) && dump.Dumped? && !AllStrings(sources.items)
    ensures r.Success? <==>
      ValidInputs(question, toolResults, sources) && dump.Dumped? && AllStrings(sources.items)
    ensures r.Success? ==>
      && SourcesLine(sources.items).Success?
      && r.value == Prompt(question.s, DisplayText(dump.text), SourcesLine(sources.items).value)
  {
    if !IsNonEmptyString(question) then Failure(ValueError(QuestionMessage))
    else if !toolResults.Obj? then Failure(ValueError(ToolResultsMessage))
    else if !sources.Arr? then Failure(ValueError(SourcesMessage))
    else match dump
      case DumpFailed(reason) => Failure(RuntimeError(SerializationPrefix + reason))
      case Dumped(text) =>
        var shown := DisplayText(text);
        match SourcesLine(sources.items)
        case Failure(e) => Failure(e)
        case Success(line) => Success(Prompt(question.s, shown, line))
  }

  /**
    Where each piece sits in a prompt: the question verbatim between double
    quotes, then the shown tool results, then the sources line, then the
    fixed instructions.
   */
  lemma PromptLayout(question: string, shown: string, sourcesLine: string)
    ensures var p := Prompt(question, shown, sourcesLine);
      var q := |Preamble|;
      var d := q + |question| + |QuestionClose|;
      var l := d + |shown| + |SourcesLabel|;
      && l + |sourcesLine| <= |p|
      && p[..q] == Preamble && p[q - 1] == '"'
      && p[q..q + |question|] == question
      && p[q + |question|] == '"'
      && p[q + |question|..d] == QuestionClose
      && p[d..d + |shown|] == shown
      && p[d + |shown|..l] == SourcesLabel
      && p[l..l + |sourcesLine|] == sourcesLine
      && p[l + |sourcesLine|..] == Instructions
  {
    LayoutBefore(question, shown, sourcesLine, Instructions);
  }

  /** The same layout for any text after the sources line. */
  lemma LayoutBefore(question: string, shown: string, sourcesLine: string, tail: string)
    ensures var p := Preamble + question + QuestionClose + shown + SourcesLabel + sourcesLine + tail;
      var q := |Preamble|;
      var d := q + |question| + |QuestionClose|;
      var l := d + |shown| + |SourcesLabel|;
      && l + |sourcesLine| <= |p|
      && p[..q] == Preamble && p[q - 1] == '"'
      && p[q..q + |question|] == question
      && p[q + |question|] == '"'
      && p[q + |question|..d] == QuestionClose
      && p[d..d + |shown|] == shown
      && p[d + |shown|..l] == SourcesLabel
      && p[l..l + |sourcesLine|] == sourcesLine
      && p[l + |sourcesLine|..] == tail
  {
    LayoutWith(Preamble, question, QuestionClose, shown, SourcesLabel, sourcesLine, tail);
    var p := Preamble + question + QuestionClose + shown + SourcesLabel + sourcesLine + tail;
    var q := |Preamble|;
    assert p[q - 1] == p[..q][q - 1];
    assert p[q + |question|] == p[q + |question|..q + |question| + |QuestionClose|][0];
  }

  /** Where each of seven concatenated pieces sits. */
  lemma LayoutWith(a: string, b: string, c: string, d: string, e: string, f: string, g: string)
    ensures var p := a + b + c + d + e + f + g;
      var i1 := |a|;
      var i2 := i1 + |b|;
      var i3 := i2 + |c|;
      var i4 := i3 + |d|;
      var i5 := i4 + |e|;
      var i6 := i5 + |f|;
      && |p| == i6 + |g|
      && p[..i1] == a && p[i1..i2] == b && p[i2..i3] == c && p[i3..i4] == d
      && p[i4..i5] == e && p[i5..i6] == f && p[i6..] == g
  {
  }
}
