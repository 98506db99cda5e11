/**
  The per-session state machine of the "AI Chef" chat assistant.

  One session owns three lists: the chat transcript, the pantry (`dispensa`,
  a list of extracted ingredient records) and the dietary preferences
  (`preferenze`, a list of strings). Each user turn asks a language model to
  extract ingredients and preferences from the message, merges them into the
  pantry and the preferences, appends the message to the transcript, and asks
  the language model again for an answer, given a rendering of the state.

  Both language-model calls are parameters: `extractor` and `producer` map
  their input to the model's reply or to the exception the call raised, and
  `parse` stands for `json.loads` on the cleaned reply.
 */
module Chef {
  import opened Wrappers
  import opened PyStr

  /** An ingredient field as decoded from JSON: a string or `null`. */
  datatype Field = Str(text: string) | Null

  /** One pantry entry: the JSON object {"item", "qty", "expiry"}. */
  datatype Ingredient = Ingredient(item: Field, qty: Field, expiry: Field)

  /** The JSON record the extraction call is asked for; a missing key
      decodes as an empty list (`data.get(key, [])`). */
  datatype Extraction = Extraction(ingredients: seq<Ingredient>, preferences: seq<string>)

  /** A transcript entry: a HumanMessage or an AIMessage. */
  datatype Message = Human(content: string) | Ai(content: string)

  /** What a call into the language model yields: the reply's content, or
      the exception it raised, as text. */
  datatype Reply = Content(text: string) | Raised(error: string)

  /** What the answering call is given: the three renderings embedded in the
      system instruction, the earlier transcript and the new user text. */
  datatype Prompt = Prompt(pantry: string, preferences: string, sufficient: string,
                           history: seq<Message>, input: string)

  /** What a turn shows: nothing, an error box, or the assistant's answer. */
  datatype TurnOutcome = Ignored | ShowedError(message: string) | Answered(text: string)

  const JsonFence: string := "```json"
  const EmptyPantry: string := "La dispensa è vuota."
  const NoPreferences: string := "Nessuna"
  const PreferenceSeparator: string := ", "
  const MissingKeyMessage: string := "Inserisci la chiave API nella sidebar!"
  const ErrorPrefix: string := "Errore: "
  /** Pantry size from which the answering call is told to propose recipes. */
  const SufficientItems: nat := 3

  // ---------------------------------------------------------------------
  // Reply cleaning (app.py:33)

  /** The extraction reply made ready for `json.loads`: stripped, then every
      "```json" deleted, then every "```" deleted. No triple backtick is
      left in it, whatever the reply was. */
  function CleanReply(reply: string): (r: string)
    ensures Free(r, Fence)
    ensures |r| <= |reply|
  {
    var unfenced := RemoveAll(Strip(reply), JsonFence);
    FenceFree(unfenced);
    RemoveAll(unfenced, Fence)
  }

  /** A reply wrapped in a ```json code fence, with any whitespace around
      the fence, is cleaned down to the fenced body. */
  lemma CleanFencedReply(lead: string, body: string, trail: string)
    requires AllSpace(lead) && AllSpace(trail)
    requires '`' !in body
    ensures CleanReply(lead + JsonFence + body + Fence + trail) == body
  {
    var fenced := JsonFence + body + Fence;
    assert lead + JsonFence + body + Fence + trail == lead + fenced + trail;
    StripFramed(lead, fenced, trail);
    UnfenceJson(body);
    UnfenceEnd(body);
  }

  lemma UnfenceJson(body: string)
    requires '`' !in body
    ensures RemoveAll(JsonFence + body + Fence, JsonFence) == body + Fence
  {
    RemoveAllLeading(JsonFence, body + Fence);
    assert JsonFence + body + Fence == JsonFence + (body + Fence);
    RemoveAllPlainPrefix(body, Fence, JsonFence);
    assert RemoveAll(Fence, JsonFence) == Fence;
  }

  lemma UnfenceEnd(body: string)
    requires '`' !in body
    ensures RemoveAll(body + Fence, Fence) == body
  {
    RemoveAllPlainPrefix(body, Fence, Fence);
    RemoveAllLeading(Fence, []);
    assert Fence + [] == Fence;
    assert body + [] == body;
  }

  /** A reply without any backtick is only stripped. */
  lemma CleanPlainReply(reply: string)
    requires '`' !in reply
    ensures CleanReply(reply) == Strip(reply)
  {
    var s := Strip(reply);
    assert '`' !in s;
    RemoveAllPlainPrefix(s, [], JsonFence);
    RemoveAllPlainPrefix(s, [], Fence);
    assert s + [] == s;
  }

  /** The extraction as `update_kitchen_state` sees it: none when the call
      raised or `json.loads` rejected the cleaned text. */
  function ParseReply(reply: Reply, parse: string -> Option<Extraction>): Option<Extraction>
  {
    match reply
    case Raised(_) => None
    case Content(text) => parse(CleanReply(text))
  }

  /** A raised extraction call yields nothing to merge, and a fenced reply
      reaches `json.loads` as its bare body. */
  lemma ParseReplyCases(parse: string -> Option<Extraction>, error: string,
                        lead: string, body: string, trail: string)
    requires AllSpace(lead) && AllSpace(trail) && '`' !in body
    ensures ParseReply(Raised(error), parse) == None
    ensures ParseReply(Content(lead + JsonFence + body + Fence + trail), parse) == parse(body)
  {
    CleanFencedReply(lead, body, trail);
  }

  // ---------------------------------------------------------------------
  // Merging an extraction (app.py:36-41)

  predicate NoDuplicates<T(==)>(s: seq<T>)
  {
    forall i, j :: 0 <= i < j < |s| ==> s[i] != s[j]
  }

  /** The preferences after the loop of app.py:39-41: each extracted string
      is appended unless an equal string is already there, including one
      appended earlier in the same batch. */
  function MergePreferences(p: seq<string>, xs: seq<string>): (r: seq<string>)
    ensures |p| <= |r| <= |p| + |xs| && r[..|p|] == p
    ensures forall x :: x in r <==> x in p || x in xs
    ensures NoDuplicates(p) ==> NoDuplicates(r)
    decreases |xs|
  {
    if xs == [] then p
    else
      var m := MergePreferences(p, xs[..|xs| - 1]);
      var x := xs[|xs| - 1];
      if x in m then m else m + [x]
  }

  /** The preferences a batch adds, by position: `xs[k]` is kept exactly
      when it is neither in `p` nor among `xs[..k]`, in batch order. */
  function Fresh(p: seq<string>, xs: seq<string>): seq<string>
    decreases |xs|
  {
    if xs == [] then []
    else
      var init, x := xs[..|xs| - 1], xs[|xs| - 1];
      Fresh(p, init) + (if x in p || x in init then [] else [x])
  }

  /** The merge appends exactly the fresh preferences, in batch order. */
  lemma {:induction false} MergeIsFresh(p: seq<string>, xs: seq<string>)
    ensures MergePreferences(p, xs) == p + Fresh(p, xs)
    decreases |xs|
  {
    if xs == [] {
      assert p + [] == p;
    } else {
      var init, x := xs[..|xs| - 1], xs[|xs| - 1];
      MergeIsFresh(p, init);
      var m := MergePreferences(p, init);
      assert x in m <==> x in p || x in init;
      if !(x in p || x in init) {
        assert m + [x] == p + (Fresh(p, init) + [x]);
      } else {
        assert Fresh(p, init) + [] == Fresh(p, init);
      }
    }
  }

  /** A string is fresh exactly when the batch holds it and `p` does not. */
  lemma {:induction false} FreshMembers(p: seq<string>, xs: seq<string>)
    ensures forall x :: x in Fresh(p, xs) <==> x in xs && x !in p
    decreases |xs|
  {
    if xs != [] {
      var init, y := xs[..|xs| - 1], xs[|xs| - 1];
      FreshMembers(p, init);
      assert xs == init + [y];
      forall x
        ensures x in Fresh(p, xs) <==> x in xs && x !in p
      {
        assert x in xs <==> x in init || x == y;
      }
    }
  }

  /** One more step of the loop of app.py:39-41. */
  lemma MergeStep(p: seq<string>, xs: seq<string>, j: nat)
    requires j < |xs|
    ensures var m := MergePreferences(p, xs[..j]);
      MergePreferences(p, xs[..j + 1]) == if xs[j] in m then m else m + [xs[j]]
  {
    assert xs[..j + 1][..j] == xs[..j];
  }

  /** Preferences all already present change nothing. */
  lemma {:induction false} MergeKnown(p: seq<string>, xs: seq<string>)
    requires forall x :: x in xs ==> x in p
    ensures MergePreferences(p, xs) == p
    decreases |xs|
  {
    if xs != [] {
      MergeKnown(p, xs[..|xs| - 1]);
      assert xs[|xs| - 1] in xs;
    }
  }

  /** Merging the same preferences twice is merging them once. */
  lemma MergeIdempotent(p: seq<string>, xs: seq<string>)
    ensures MergePreferences(MergePreferences(p, xs), xs) == MergePreferences(p, xs)
  {
    MergeKnown(MergePreferences(p, xs), xs);
  }

  /** Merging a batch is merging its two halves one after the other. */
  lemma {:induction false} MergeSplit(p: seq<string>, xs: seq<string>, ys: seq<string>)
    ensures MergePreferences(p, xs + ys) == MergePreferences(MergePreferences(p, xs), ys)
    decreases |ys|
  {
    if ys == [] {
      assert xs + ys == xs;
    } else {
      assert (xs + ys)[..|xs + ys| - 1] == xs + ys[..|ys| - 1];
      MergeSplit(p, xs, ys[..|ys| - 1]);
    }
  }

  /** The pantry after app.py:36-37: every extracted ingredient appended,
      in order, with no merge by name. */
  function PantryAfter(d: seq<Ingredient>, parsed: Option<Extraction>): seq<Ingredient>
  {
    match parsed
    case None => d
    case Some(e) => d + e.ingredients
  }

  function PreferencesAfter(p: seq<string>, parsed: Option<Extraction>): seq<string>
  {
    match parsed
    case None => p
    case Some(e) => MergePreferences(p, e.preferences)
  }

  /** An update keeps every earlier pantry entry and preference in place,
      keeps the preferences free of duplicates, and changes nothing when
      there is nothing to merge. */
  lemma UpdateKeepsOld(d: seq<Ingredient>, p: seq<string>, parsed: Option<Extraction>)
    ensures PantryAfter(d, parsed)[..|d|] == d && PreferencesAfter(p, parsed)[..|p|] == p
    ensures NoDuplicates(p) ==> NoDuplicates(PreferencesAfter(p, parsed))
    ensures parsed == None ==> PantryAfter(d, parsed) == d && PreferencesAfter(p, parsed) == p
    ensures parsed.Some? ==>
      PantryAfter(d, parsed) == d + parsed.value.ingredients &&
      PreferencesAfter(p, parsed) == p + Fresh(p, parsed.value.preferences)
  {
    if parsed.Some? {
      MergeIsFresh(p, parsed.value.preferences);
    }
  }

  /** The same extraction applied twice leaves the preferences as after the
      first time but lists its ingredients twice in the pantry. */
  lemma ExtractionTwice(d: seq<Ingredient>, p: seq<string>, e: Extraction)
    ensures PreferencesAfter(PreferencesAfter(p, Some(e)), Some(e)) == PreferencesAfter(p, Some(e))
    ensures PantryAfter(PantryAfter(d, Some(e)), Some(e)) == d + e.ingredients + e.ingredients
  {
    MergeIdempotent(p, e.preferences);
  }

  // ---------------------------------------------------------------------
  // Sufficiency verdict (app.py:99)

  /** "SI" exactly when the pantry holds at least three entries. */
  function Sufficient(d: seq<Ingredient>): (r: string)
    ensures r == "SI" || r == "NO"
    ensures r == "SI" <==> |d| >= SufficientItems
  {
    if |d| >= SufficientItems then "SI" else "NO"
  }

  // ---------------------------------------------------------------------
  // Rendering the state for the answering call (app.py:95-97, 104, 106)

  /** Python's f-string rendering of a JSON value: `null` prints as "None". */
  function FieldText(f: Field): string
  {
    match f
    case Str(s) => s
    case Null => "None"
  }

  /** The pantry line of one ingredient: the f-string of app.py:97. */
  function Line(ing: Ingredient): string
  {
    LineBody(ing) + "\n"
  }

  /** A pantry line without its line break. */
  function LineBody(ing: Ingredient): string
  {
    "- " + FieldText(ing.item) + " (Quantità: " + FieldText(ing.qty) +
    ", Scadenza: " + FieldText(ing.expiry) + ")"
  }

  predicate NoNewline(f: Field)
  {
    '\n' !in FieldText(f)
  }

  /** A pantry line starts with "- " and, when no field holds a line
      break, holds exactly one line break, its last character; a JSON
      `null` field is shown as "None". */
  lemma LineBreaks(ing: Ingredient)
    ensures Line(ing)[..2] == "- " && Line(ing)[|Line(ing)| - 1] == '\n'
    ensures ing.item == Null ==> LineBody(ing)[2..6] == "None"
    ensures NoNewline(ing.item) && NoNewline(ing.qty) && NoNewline(ing.expiry) ==>
      CountChar(Line(ing), '\n') == 1
  {
    var body := LineBody(ing);
    assert Line(ing)[..2] == body[..2] == "- ";
    if NoNewline(ing.item) && NoNewline(ing.qty) && NoNewline(ing.expiry) {
      assert '\n' !in body;
      CountCharAbsent(body, '\n');
      CountCharConcat(body, "\n", '\n');
    }
  }

  /** The texts `f(x)` of the elements `x` of `xs`, one after the other. */
  function ConcatMap<T>(xs: seq<T>, f: T -> string): string
    decreases |xs|
  {
    if xs == [] then "" else ConcatMap(xs[..|xs| - 1], f) + f(xs[|xs| - 1])
  }

  lemma {:induction false} ConcatMapConcat<T>(xs: seq<T>, ys: seq<T>, f: T -> string)
    ensures ConcatMap(xs + ys, f) == ConcatMap(xs, f) + ConcatMap(ys, f)
    decreases |ys|
  {
    if ys == [] {
      assert xs + ys == xs;
    } else {
      assert (xs + ys)[..|xs + ys| - 1] == xs + ys[..|ys| - 1];
      ConcatMapConcat(xs, ys[..|ys| - 1], f);
    }
  }

  lemma ConcatMapCons<T>(xs: seq<T>, f: T -> string)
    requires xs != []
    ensures ConcatMap(xs, f) == f(xs[0]) + ConcatMap(xs[1..], f)
  {
    assert xs == [xs[0]] + xs[1..];
    ConcatMapConcat([xs[0]], xs[1..], f);
    assert ConcatMap([xs[0]], f) == f(xs[0]) by {
      assert [xs[0]][..0] == [];
    }
  }

  lemma ConcatMapAt<T>(xs: seq<T>, i: nat, f: T -> string)
    requires i < |xs|
    ensures ConcatMap(xs, f) == ConcatMap(xs[..i], f) + f(xs[i]) + ConcatMap(xs[i + 1..], f)
  {
    assert xs == xs[..i] + xs[i..];
    ConcatMapConcat(xs[..i], xs[i..], f);
    ConcatMapCons(xs[i..], f);
    assert xs[i..][1..] == xs[i + 1..];
  }

  /** The pantry text: one line per entry, in pantry order. */
  function PantryText(d: seq<Ingredient>): string
  {
    ConcatMap(d, Line)
  }

  /** Entry `i` is rendered by its own line, between the lines of the
      entries before it and those of the entries after it; so the text of a
      pantry extended by new entries extends the old text. */
  lemma PantryTextAt(d: seq<Ingredient>, i: nat)
    requires i < |d|
    ensures PantryText(d) == PantryText(d[..i]) + Line(d[i]) + PantryText(d[i + 1..])
  {
    ConcatMapAt(d, i, Line);
  }

  /** The pantry text is empty exactly when the pantry is: every line is
      non-empty. */
  lemma PantryTextEmpty(d: seq<Ingredient>)
    ensures PantryText(d) == "" <==> d == []
  {
    if d != [] {
      PantryTextAt(d, |d| - 1);
      assert |Line(d[|d| - 1])| > 0;
    }
  }

  /** Appending entries to the pantry appends their lines to its text. */
  lemma PantryTextConcat(a: seq<Ingredient>, b: seq<Ingredient>)
    ensures PantryText(a + b) == PantryText(a) + PantryText(b)
  {
    ConcatMapConcat(a, b, Line);
  }

  function CountChar(s: string, c: char): nat
  {
    if s == [] then 0 else (if s[0] == c then 1 else 0) + CountChar(s[1..], c)
  }

  lemma {:induction false} CountCharConcat(a: string, b: string, c: char)
    ensures CountChar(a + b, c) == CountChar(a, c) + CountChar(b, c)
    decreases |a|
  {
    if a == [] {
      assert a + b == b;
    } else {
      assert (a + b)[1..] == a[1..] + b;
      CountCharConcat(a[1..], b, c);
    }
  }

  lemma {:induction false} CountCharAbsent(s: string, c: char)
    requires c !in s
    ensures CountChar(s, c) == 0
    decreases |s|
  {
    if s != [] {
      assert s[0] != c;
      CountCharAbsent(s[1..], c);
    }
  }

  /** When no field holds a line break, the pantry text has exactly one
      line break per pantry entry. */
  lemma {:induction false} PantryTextLines(d: seq<Ingredient>)
    requires forall ing :: ing in d ==> NoNewline(ing.item) && NoNewline(ing.qty) && NoNewline(ing.expiry)
    ensures CountChar(PantryText(d), '\n') == |d|
    decreases |d|
  {
    if d != [] {
      var ing := d[|d| - 1];
      assert ing in d;
      PantryTextLines(d[..|d| - 1]);
      assert PantryText(d) == PantryText(d[..|d| - 1]) + Line(ing);
      LineBreaks(ing);
      CountCharConcat(PantryText(d[..|d| - 1]), Line(ing), '\n');
    }
  }

  /** The `+=` loop of app.py:95-97. */
  method RenderPantry(d: seq<Ingredient>) returns (txt: string)
    ensures txt == PantryText(d)
  {
    txt := "";
    for i := 0 to |d|
      invariant txt == PantryText(d[..i])
    {
      assert d[..i + 1][..i] == d[..i];
      assert PantryText(d[..i + 1]) == PantryText(d[..i]) + Line(d[i]);
      txt := txt + Line(d[i]);
    }
    assert d[..|d|] == d;
  }

  /** The pantry part of the system instruction (app.py:104): the pantry
      text, or the placeholder when that text is empty. */
  function PantrySection(txt: string): string
  {
    if txt == "" then EmptyPantry else txt
  }

  /** The placeholder is shown exactly when the pantry is empty; otherwise
      the pantry text itself is shown. */
  lemma PantrySectionPlaceholder(d: seq<Ingredient>)
    ensures d == [] ==> PantrySection(PantryText(d)) == EmptyPantry
    ensures d != [] ==> PantrySection(PantryText(d)) == PantryText(d) != EmptyPantry
  {
    if d != [] {
      PantryTextAt(d, 0);
      assert PantryText(d[..0]) == "";
      assert PantryText(d)[0] == Line(d[0])[0] == '-';
    }
  }

  /** The preference part of the system instruction (app.py:106). */
  function PreferenceText(p: seq<string>): string
  {
    if p == [] then NoPreferences else Join(p, PreferenceSeparator)
  }

  /** After a merge the preference text is unchanged when nothing is fresh.
      Otherwise it is the join of the fresh preferences when the list was
      empty, the "Nessuna" of the first turn giving way, and the old text
      followed by ", " and that join when it was not. */
  lemma PreferenceTextGrows(p: seq<string>, xs: seq<string>)
    ensures var added := Fresh(p, xs);
      PreferenceText(MergePreferences(p, xs)) ==
        if added == [] then PreferenceText(p)
        else if p == [] then Join(added, PreferenceSeparator)
        else PreferenceText(p) + PreferenceSeparator + Join(added, PreferenceSeparator)
  {
    var added := Fresh(p, xs);
    MergeIsFresh(p, xs);
    if added == [] {
      assert p + added == p;
    } else if p == [] {
      assert p + added == added;
    } else {
      JoinConcat(p, added, PreferenceSeparator);
    }
  }

  /** The prompt the answering call receives, for a given state. */
  function TurnPrompt(d: seq<Ingredient>, p: seq<string>, history: seq<Message>, input: string): Prompt
  {
    Prompt(PantrySection(PantryText(d)), PreferenceText(p), Sufficient(d), history, input)
  }

  /** What the prompt tells the answering call about the state: the verdict
      is "SI" iff the pantry has at least three entries, the pantry placeholder
      appears iff the pantry is empty, "Nessuna" stands in for an empty
      preference list, and the transcript and user text are passed as
      given. */
  lemma TurnPromptState(d: seq<Ingredient>, p: seq<string>, history: seq<Message>, input: string)
    ensures var prompt := TurnPrompt(d, p, history, input);
      && (prompt.sufficient == "SI" <==> |d| >= SufficientItems)
      && (prompt.pantry == EmptyPantry <==> d == [])
      && (d != [] ==> prompt.pantry == PantryText(d))
      && (p == [] ==> prompt.preferences == NoPreferences)
      && (p != [] ==> prompt.preferences == Join(p, PreferenceSeparator))
      && prompt.history == history && prompt.input == input
  {
    PantrySectionPlaceholder(d);
  }

  // ---------------------------------------------------------------------
  // The session (app.py:11-16, 19-43, 60-64, 77-131)

  /** Every assistant message directly follows a user message. */
  predicate Alternating(h: seq<Message>)
  {
    forall i :: 0 <= i < |h| && h[i].Ai? ==> i > 0 && h[i - 1].Human?
  }

  class KitchenSession {
    var chatHistory: seq<Message>
    var dispensa: seq<Ingredient>
    var preferenze: seq<string>

    predicate Valid()
      reads this
    {
      NoDuplicates(preferenze) && Alternating(chatHistory)
    }

    /** A fresh session (app.py:11-16). */
    constructor ()
      ensures Valid()
      ensures chatHistory == [] && dispensa == [] && preferenze == []
    {
      chatHistory := [];
      dispensa := [];
      preferenze := [];
    }

    /** `update_kitchen_state` (app.py:19-43): merges what the extraction
        reply yields; a raised call or a rejected parse changes nothing. */
    method UpdateKitchenState(reply: Reply, parse: string -> Option<Extraction>)
      requires Valid()
      modifies this`dispensa, this`preferenze
      ensures Valid()
      ensures dispensa == PantryAfter(old(dispensa), ParseReply(reply, parse))
      ensures preferenze == PreferencesAfter(old(preferenze), ParseReply(reply, parse))
    {
      var parsed := ParseReply(reply, parse);
      if parsed.Some? {
        MergeExtraction(parsed.value);
      }
    }

    /** The two loops of app.py:36-41: ingredients appended as they come,
        preferences appended unless already present. */
    method MergeExtraction(data: Extraction)
      requires Valid()
      modifies this`dispensa, this`preferenze
      ensures Valid()
      ensures dispensa == old(dispensa) + data.ingredients
      ensures preferenze == MergePreferences(old(preferenze), data.preferences)
    {
      for i := 0 to |data.ingredients|
        invariant dispensa == old(dispensa) + data.ingredients[..i]
        invariant preferenze == old(preferenze)
      {
        assert data.ingredients[..i + 1] == data.ingredients[..i] + [data.ingredients[i]];
        dispensa := dispensa + [data.ingredients[i]];
      }
      assert data.ingredients[..|data.ingredients|] == data.ingredients;
      for j := 0 to |data.preferences|
        invariant preferenze == MergePreferences(old(preferenze), data.preferences[..j])
        invariant dispensa == old(dispensa) + data.ingredients
      {
        MergeStep(old(preferenze), data.preferences, j);
        var pref := data.preferences[j];
        if pref !in preferenze {
          preferenze := preferenze + [pref];
        }
      }
      assert data.preferences[..|data.preferences|] == data.preferences;
    }

    /** One submitted chat message (app.py:77-131). */
    method HandleTurn(userInput: string, apiKey: string, extractor: string -> Reply,
                      parse: string -> Option<Extraction>, producer: Prompt -> Reply)
      returns (outcome: TurnOutcome)
      requires Valid()
      modifies this
      ensures Valid()
      ensures userInput == "" ==> outcome == Ignored && unchanged(this)
      ensures userInput != "" && apiKey == "" ==>
        outcome == ShowedError(MissingKeyMessage) && unchanged(this)
      ensures userInput != "" && apiKey != "" ==>
        var parsed := ParseReply(extractor(userInput), parse);
        && dispensa == PantryAfter(old(dispensa), parsed)
        && preferenze == PreferencesAfter(old(preferenze), parsed)
        && var prompt := TurnPrompt(dispensa, preferenze, old(chatHistory), userInput);
           match producer(prompt)
           case Content(answer) =>
             chatHistory == old(chatHistory) + [Human(userInput), Ai(answer)] && outcome == Answered(answer)
           case Raised(e) =>
             chatHistory == old(chatHistory) + [Human(userInput)] && outcome == ShowedError(ErrorPrefix + e)
      ensures Sufficient(old(dispensa)) == "SI" ==> Sufficient(dispensa) == "SI"
    {
      if userInput == "" {
        return Ignored;
      }
      if apiKey == "" {
        return ShowedError(MissingKeyMessage);
      }
      UpdateKitchenState(extractor(userInput), parse);
      chatHistory := chatHistory + [Human(userInput)];
      var pantryText := RenderPantry(dispensa);
      var sufficient := Sufficient(dispensa);
      var prompt := Prompt(PantrySection(pantryText), PreferenceText(preferenze), sufficient,
                           chatHistory[..|chatHistory| - 1], userInput);
      var response := producer(prompt);
      match response {
        case Content(answer) =>
          chatHistory := chatHistory + [Ai(answer)];
          outcome := Answered(answer);
        case Raised(e) =>
          outcome := ShowedError(ErrorPrefix + e);
      }
    }

    /** The "Reset Totale" button (app.py:60-64). */
    method Reset()
      modifies this
      ensures Valid()
      ensures chatHistory == [] && dispensa == [] && preferenze == []
    {
      chatHistory := [];
      dispensa := [];
      preferenze := [];
    }
  }
}
