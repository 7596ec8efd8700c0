/** `test.py`: the prompt file of the browser client. `prepare_prompt_json` reads the prompt
    text line by line and builds a map from county to its `url` and `instructions`;
    `get_instructions` looks a county up in that map and formats the task for the agent.

    The prompt format:
      `# ...`              a comment, skipped wherever it appears;
      `>>County: X`        starts county `X` with an empty entry;
      `>>URL: u`           sets the current county's url (raising `KeyError` when no county
                           was ever started);
      `>>INSTRUCTIONS:`    empties the instruction buffer and enters instruction mode;
      any other line       is added to the instruction buffer (blank lines only in
                           instruction mode; before any `>>INSTRUCTIONS:` the buffer is an
                           unbound local and the line raises `UnboundLocalError`). */
module PromptFile {

  import opened Wrappers
  import opened Text

  const CountyTag: string := ">>County:"
  const UrlTag: string := ">>URL:"
  const InstructionsTag: string := ">>INSTRUCTIONS:"

  /** One county's dict: the `url` and `instructions` keys, each possibly missing. */
  datatype Entry = Entry(url: Option<string>, instructions: Option<string>)

  const EmptyEntry: Entry := Entry(None, None)

  /** `prompt_data`: county name to its entry. */
  type PromptData = map<string, Entry>

  /** The exceptions the parser can raise. */
  datatype ParseError =
    | KeyError             // `prompt_data[current_county]` with `current_county` still `None`
    | UnboundInstructions  // `instructions` used before any `>>INSTRUCTIONS:` bound it

  /** The parser's locals: `prompt_data`, `current_county`, `in_instructions` and the
      `instructions` list (`None` while the name is unbound). */
  datatype Parser = Parser(data: PromptData, county: Option<string>, inInstructions: bool, buffer: Option<seq<string>>)

  const Start: Parser := Parser(map[], None, false, None)

  /** `if current_county`: set and not the empty string. */
  predicate Truthy(county: Option<string>) {
    county.Some? && county.value != ""
  }

  /** What every reachable parser state satisfies: instruction mode has a bound buffer, and
      the current county has an entry. */
  predicate Valid(p: Parser) {
    (p.inInstructions ==> p.buffer.Some?) && (p.county.Some? ==> p.county.value in p.data)
  }

  /** `line.replace(tag, '').strip()`: the value after a tag. */
  function TagValue(line: string, tag: string): (r: string)
    requires |tag| > 0
    ensures |r| <= |line|
    ensures r == [] || (!IsSpace(r[0]) && !IsSpace(r[|r| - 1]))
  {
    Strip(RemoveAll(line, tag))
  }

  /** `if current_county and instructions: prompt_data[current_county]['instructions'] =
      "\n".join(instructions)`: the buffer is stored into the current county when both are
      truthy; nothing else in the map changes. */
  function Flush(p: Parser): (r: Result<PromptData, ParseError>)
    ensures r.Err? <==> Truthy(p.county) && (p.buffer.None? || (|p.buffer.value| > 0 && p.county.value !in p.data))
    ensures r.Err? ==> r.error == (if p.buffer.None? then UnboundInstructions else KeyError)
    ensures r.Ok? && Truthy(p.county) && |p.buffer.value| > 0 ==>
      r.value == p.data[p.county.value := p.data[p.county.value].(instructions := Some(Join(p.buffer.value, "\n")))]
    ensures r.Ok? && !(Truthy(p.county) && |p.buffer.value| > 0) ==> r.value == p.data
  {
    if !Truthy(p.county) then Ok(p.data)
    else if p.buffer.None? then Err(UnboundInstructions)
    else if |p.buffer.value| == 0 then Ok(p.data)
    else if p.county.value !in p.data then Err(KeyError)
    else Ok(p.data[p.county.value := p.data[p.county.value].(instructions := Some(Join(p.buffer.value, "\n")))])
  }

  /** One iteration of the loop of `prepare_prompt_json` on a line after `line.strip()`, its
      branches in the source's order. */
  function Step(p: Parser, line: string): Result<Parser, ParseError> {
    if StartsWith(line, "#") then Ok(p)
    else if StartsWith(line, CountyTag) && !p.inInstructions then
      var c := TagValue(line, CountyTag);
      Ok(p.(data := p.data[c := EmptyEntry], county := Some(c), inInstructions := false))
    else if StartsWith(line, UrlTag) then
      var url := TagValue(line, UrlTag);
      if p.county.None? || p.county.value !in p.data then Err(KeyError)
      else Ok(p.(data := p.data[p.county.value := p.data[p.county.value].(url := Some(url))]))
    else if StartsWith(line, InstructionsTag) then
      Ok(p.(buffer := Some([]), inInstructions := true))
    else if p.inInstructions then
      if StartsWith(line, CountyTag) then
        match Flush(p)
        case Err(e) => Err(e)
        case Ok(d) =>
          var c := TagValue(line, CountyTag);
          Ok(p.(data := d[c := EmptyEntry], county := Some(c), inInstructions := false))
      else if p.buffer.None? then Err(UnboundInstructions)
      else Ok(p.(buffer := Some(p.buffer.value + [line])))
    else if line == "" then Ok(p)
    else if p.buffer.None? then Err(UnboundInstructions)
    else Ok(p.(buffer := Some(p.buffer.value + [line])))
  }

  /** The loop over `lines`, stopping at the first exception. */
  function Run(p: Parser, lines: seq<string>): Result<Parser, ParseError>
    decreases |lines|
  {
    if |lines| == 0 then Ok(p)
    else
      match Run(p, lines[..|lines| - 1])
      case Err(e) => Err(e)
      case Ok(q) => Step(q, Strip(lines[|lines| - 1]))
  }


  /** The loop over `lines` followed by the final flush: the `prompt_json` it builds. */
  function ParseLines(lines: seq<string>): Result<PromptData, ParseError> {
    match Run(Start, lines)
    case Err(e) => Err(e)
    case Ok(p) => Flush(p)
  }

  /** `prepare_prompt_json` on the text `self.prompt_text.split('\n')`. */
  function PromptJson(text: string): Result<PromptData, ParseError> {
    ParseLines(Split(text, '\n'))
  }

  /** No step drops a county, and only a county line adds one. */
  lemma StepCounties(p: Parser, line: string)
    ensures Step(p, line).Ok? ==> p.data.Keys <= Step(p, line).value.data.Keys
    ensures Step(p, line).Ok? && !StartsWith(line, CountyTag) ==> Step(p, line).value.data.Keys == p.data.Keys
  {
  }

  /** None of `lines` is a county line once stripped. */
  predicate NoCountyLine(lines: seq<string>) {
    forall i :: 0 <= i < |lines| ==> !StartsWith(Strip(lines[i]), CountyTag)
  }

  /** The loop never drops a county, and lines without a county line add none. */
  lemma {:induction false} RunCounties(p: Parser, lines: seq<string>)
    ensures Run(p, lines).Ok? ==> p.data.Keys <= Run(p, lines).value.data.Keys
    ensures Run(p, lines).Ok? && NoCountyLine(lines) ==> Run(p, lines).value.data.Keys == p.data.Keys
  {
    if |lines| > 0 {
      var init := lines[..|lines| - 1];
      assert forall i :: 0 <= i < |init| ==> init[i] == lines[i];
      RunCounties(p, init);
      if Run(p, init).Ok? {
        StepCounties(Run(p, init).value, Strip(lines[|lines| - 1]));
      }
    }
  }

  /** A prompt text without a county line gives an empty `prompt_json`, or raises. */
  lemma NoCountyNoData(text: string)
    requires NoCountyLine(Split(text, '\n'))
    ensures PromptJson(text).Ok? ==> PromptJson(text).value == map[]
  {
    RunCounties(Start, Split(text, '\n'));
  }

  /** What a stripped line is, by its first tag, read the same way in either mode. */
  datatype LineKind = Comment | CountyLine(name: string) | UrlLine(url: string) | InstructionsLine | BlankLine | TextLine(text: string)

  function KindOf(line: string): LineKind {
    if StartsWith(line, "#") then Comment
    else if StartsWith(line, CountyTag) then CountyLine(TagValue(line, CountyTag))
    else if StartsWith(line, UrlTag) then UrlLine(TagValue(line, UrlTag))
    else if StartsWith(line, InstructionsTag) then InstructionsLine
    else if line == "" then BlankLine
    else TextLine(line)
  }

  /** What each kind of line does to a parser in a reachable state:
      - a comment does nothing;
      - a county line outside instruction mode starts the county; inside it first stores the
        buffer into the previous county, and in both cases the buffer is kept and the mode is off;
      - a url line sets the current county's url and leaves the mode and the buffer alone,
        and raises `KeyError` when no county was started;
      - an instructions line empties the buffer and enters instruction mode;
      - a blank line is kept in instruction mode and skipped outside it;
      - a text line is added to the buffer in either mode, or raises while it is unbound. */
  function Effect(p: Parser, k: LineKind): (r: Result<Parser, ParseError>)
    requires Valid(p)
  {
    match k
    case Comment => Ok(p)
    case CountyLine(c) =>
      var d := if p.inInstructions && Truthy(p.county) && |p.buffer.value| > 0
               then p.data[p.county.value := p.data[p.county.value].(instructions := Some(Join(p.buffer.value, "\n")))]
               else p.data;
      Ok(p.(data := d[c := EmptyEntry], county := Some(c), inInstructions := false))
    case UrlLine(u) =>
      if p.county.None? then Err(KeyError)
      else Ok(p.(data := p.data[p.county.value := p.data[p.county.value].(url := Some(u))]))
    case InstructionsLine => Ok(p.(buffer := Some([]), inInstructions := true))
    case BlankLine => if p.inInstructions then Ok(p.(buffer := Some(p.buffer.value + [""]))) else Ok(p)
    case TextLine(t) => if p.buffer.None? then Err(UnboundInstructions) else Ok(p.(buffer := Some(p.buffer.value + [t])))
  }

  /** A line that starts with a tag starts with `>` and has the tag's own third character. */
  lemma TagHead(line: string, tag: string)
    requires StartsWith(line, tag) && |tag| >= 3
    ensures line[0] == tag[0] && line[2] == tag[2]
  {
    assert line[..|tag|] == tag;
  }

  /** No line starts with two different tags. */
  lemma TagsExclusive(line: string)
    ensures !(StartsWith(line, CountyTag) && StartsWith(line, UrlTag))
    ensures !(StartsWith(line, CountyTag) && StartsWith(line, InstructionsTag))
    ensures !(StartsWith(line, UrlTag) && StartsWith(line, InstructionsTag))
    ensures !(StartsWith(line, "#") && (StartsWith(line, CountyTag) || StartsWith(line, UrlTag) || StartsWith(line, InstructionsTag)))
  {
    if StartsWith(line, CountyTag) {
      TagHead(line, CountyTag);
    }
    if StartsWith(line, UrlTag) {
      TagHead(line, UrlTag);
    }
    if StartsWith(line, InstructionsTag) {
      TagHead(line, InstructionsTag);
    }
    if StartsWith(line, "#") {
      assert line[..1] == "#";
    }
  }


  /** The source's chain of `if`/`elif` tests does, line by line, what `Effect` says. */
  lemma StepByKind(p: Parser, line: string)
    requires Valid(p)
    ensures Step(p, line) == Effect(p, KindOf(line))
  {
    TagsExclusive(line);
    if StartsWith(line, "#") {
    } else if StartsWith(line, CountyTag) {
      if p.inInstructions {
        assert Flush(p).Ok?;
      }
    } else if StartsWith(line, UrlTag) {
    } else if StartsWith(line, InstructionsTag) {
    } else if line == "" {
    } else {
    }
  }

  /** From a reachable state, the only exceptions are a url line before any county and a
      text line before any `>>INSTRUCTIONS:`. */
  lemma StepErrors(p: Parser, line: string)
    requires Valid(p)
    ensures Step(p, line).Err? <==> (KindOf(line).UrlLine? && p.county.None?)
                                    || (KindOf(line).TextLine? && p.buffer.None?)
    ensures Step(p, line) == Err(KeyError) <==> KindOf(line).UrlLine? && p.county.None?
  {
    StepByKind(p, line);
  }

  /** Every step keeps the parser in a reachable state. */
  lemma StepValid(p: Parser, line: string)
    requires Valid(p)
    ensures Step(p, line).Ok? ==> Valid(Step(p, line).value)
  {
    StepByKind(p, line);
  }

  /** Every run from a reachable state stays in one. */
  lemma {:induction false} RunValid(p: Parser, lines: seq<string>)
    requires Valid(p)
    ensures Run(p, lines).Ok? ==> Valid(Run(p, lines).value)
  {
    if |lines| > 0 {
      RunValid(p, lines[..|lines| - 1]);
      if Run(p, lines[..|lines| - 1]).Ok? {
        StepValid(Run(p, lines[..|lines| - 1]).value, Strip(lines[|lines| - 1]));
      }
    }
  }

  /** A url line never leaves instruction mode nor touches the buffer; it sets the current
      county's url and no other entry. */
  lemma UrlKeepsMode(p: Parser, line: string)
    requires Valid(p) && KindOf(line).UrlLine? && p.county.Some?
    ensures Step(p, line).Ok?
    ensures var q := Step(p, line).value;
            q.inInstructions == p.inInstructions && q.buffer == p.buffer && q.county == p.county
            && q.data.Keys == p.data.Keys
            && q.data[p.county.value].url == Some(KindOf(line).url)
            && q.data[p.county.value].instructions == p.data[p.county.value].instructions
            && forall k :: k in p.data && k != p.county.value ==> q.data[k] == p.data[k]
  {
    StepByKind(p, line);
  }

  /** Inside instruction mode a blank line is kept; outside it is skipped. */
  lemma BlankLines(p: Parser)
    requires Valid(p)
    ensures p.inInstructions ==> Step(p, "") == Ok(p.(buffer := Some(p.buffer.value + [""])))
    ensures !p.inInstructions ==> Step(p, "") == Ok(p)
  {
    StepByKind(p, "");
  }

  /** A county line ends instruction mode, keeps the buffer, stores it into the previous
      county when both are truthy, and starts the new county with an empty entry. */
  lemma CountyInMode(p: Parser, line: string)
    requires Valid(p) && p.inInstructions && KindOf(line).CountyLine?
    ensures Step(p, line).Ok?
    ensures var q := Step(p, line).value;
            var c := KindOf(line).name;
            q.county == Some(c) && !q.inInstructions && q.buffer == p.buffer
            && c in q.data && q.data[c] == EmptyEntry
            && (Truthy(p.county) && |p.buffer.value| > 0 && p.county.value != c ==>
                  q.data[p.county.value].instructions == Some(Join(p.buffer.value, "\n")))
  {
    StepByKind(p, line);
  }

  /** The buffer is not emptied when a county starts, so a county with no `>>INSTRUCTIONS:`
      of its own ends up, at the final flush, with the previous county's instructions. */
  lemma BufferCarriesOver(p: Parser, c: string)
    requires Valid(p) && p.inInstructions && |p.buffer.value| > 0 && c != ""
    ensures Effect(p, CountyLine(c)).Ok?
    ensures Flush(Effect(p, CountyLine(c)).value).Ok?
    ensures Flush(Effect(p, CountyLine(c)).value).value[c].instructions == Some(Join(p.buffer.value, "\n"))
  {
    var q := Effect(p, CountyLine(c)).value;
    assert q.county == Some(c) && c in q.data && q.buffer == p.buffer;
  }

  /** Reading `a` then `b` is reading `a` and going on from where it stopped; an exception
      in `a` ends the run. */
  lemma {:induction false} RunAppend(p: Parser, a: seq<string>, b: seq<string>)
    ensures Run(p, a + b) == match Run(p, a) case Err(e) => Err(e) case Ok(q) => Run(q, b)
  {
    if |b| == 0 {
      assert a + b == a;
    } else {
      var b' := b[..|b| - 1];
      RunAppend(p, a, b');
      assert (a + b)[..|a + b| - 1] == a + b';
      assert (a + b)[|a + b| - 1] == b[|b| - 1];
    }
  }

  /** Once an exception is raised, no later line matters. */
  lemma ErrorIsFinal(a: seq<string>, b: seq<string>, e: ParseError)
    requires Run(Start, a) == Err(e)
    ensures ParseLines(a + b) == Err(e)
  {
    RunAppend(Start, a, b);
  }

  /** A comment line anywhere in the input changes nothing in the result. */
  lemma CommentIgnored(a: seq<string>, comment: string, b: seq<string>)
    requires StartsWith(Strip(comment), "#")
    ensures ParseLines(a + [comment] + b) == ParseLines(a + b)
  {
    RunAppend(Start, a + [comment], b);
    RunAppend(Start, a, [comment]);
    RunAppend(Start, a, b);
    assert Run(Start, a + [comment]) == Run(Start, a) by {
      assert (a + [comment])[..|a|] == a;
    }
  }

  /** The same for the prompt text: dropping a comment line between lines without a newline
      gives the same prompt data. */
  lemma CommentLineInText(a: seq<string>, comment: string, b: seq<string>)
    requires StartsWith(Strip(comment), "#") && '\n' !in comment
    requires |a + b| > 0
    requires forall i :: 0 <= i < |a| ==> '\n' !in a[i]
    requires forall i :: 0 <= i < |b| ==> '\n' !in b[i]
    ensures PromptJson(Join(a + [comment] + b, "\n")) == PromptJson(Join(a + b, "\n"))
  {
    var with := a + [comment] + b;
    var without := a + b;
    forall i | 0 <= i < |with| ensures '\n' !in with[i] {
      if i < |a| { assert with[i] == a[i]; }
      else if i > |a| { assert with[i] == b[i - |a| - 1]; }
    }
    forall i | 0 <= i < |without| ensures '\n' !in without[i] {
      if i < |a| { assert without[i] == a[i]; } else { assert without[i] == b[i - |a|]; }
    }
    SplitJoin(with, '\n');
    SplitJoin(without, '\n');
    CommentIgnored(a, comment, b);
  }

  /** A line that `strip()` leaves alone: not blank at either end. */
  predicate Stripped(v: string) {
    v != "" && !IsSpace(v[0]) && !IsSpace(v[|v| - 1])
  }

  /** A tag that starts with `>` does not occur in `" " + v` when `v` has no `>`. */
  lemma TagFree(tag: string, v: string)
    requires |tag| > 0 && tag[0] == '>'
    requires '>' !in v
    ensures Free(" " + v, tag)
  {
    var rest := " " + v;
    forall i | 0 <= i <= |rest| - |tag|
      ensures !OccursAt(rest, tag, i)
    {
      assert rest[i] != '>';
    }
  }

  /** `(tag + " " + v).replace(tag, '')` is `" " + v`. */
  lemma RemoveTag(tag: string, v: string)
    requires |tag| > 0 && tag[0] == '>'
    requires '>' !in v
    ensures RemoveAll(tag + " " + v, tag) == " " + v
  {
    var rest := " " + v;
    assert (tag + rest)[..|tag|] == tag;
    assert (tag + rest)[|tag|..] == rest;
    TagFree(tag, v);
    RemoveAllFree(rest, tag);
  }

  /** `(" " + v).strip()` is `v` when `v` is already stripped. */
  lemma StripSpaced(v: string)
    requires Stripped(v)
    ensures Strip(" " + v) == v
  {
    assert TrimStart(" " + v) == TrimStart(v);
    StripFixed(v);
  }

  /** The value read after a tag that starts with `>` in `tag v`, for a stripped `v` free of
      `>`, is `v`. */
  lemma TagValueOf(tag: string, v: string)
    requires |tag| > 0 && tag[0] == '>'
    requires Stripped(v) && '>' !in v
    ensures TagValue(tag + " " + v, tag) == v
  {
    RemoveTag(tag, v);
    StripSpaced(v);
  }

  /** `tag v` with a stripped `v` free of `>` is left alone by `strip()` and read back as
      that tag with value `v`. */
  lemma TagLine(tag: string, v: string)
    requires tag == CountyTag || tag == UrlTag
    requires Stripped(v) && '>' !in v
    ensures Strip(tag + " " + v) == tag + " " + v
    ensures KindOf(tag + " " + v) == if tag == CountyTag then CountyLine(v) else UrlLine(v)
  {
    var line := tag + " " + v;
    StripFixed(line);
    assert line[..|tag|] == tag;
    TagsExclusive(line);
    TagValueOf(tag, v);
  }

  /** An instruction line: blank, or stripped text that starts with neither `#` nor `>`. */
  predicate PlainLine(t: string) {
    t == "" || (Stripped(t) && t[0] != '#' && t[0] != '>')
  }

  /** A non-blank plain line is a text line. */
  lemma PlainKind(t: string)
    requires PlainLine(t) && t != ""
    ensures KindOf(t) == TextLine(t)
  {
    assert !StartsWith(t, "#") by { assert t[0] != "#"[0]; }
    assert !StartsWith(t, CountyTag) && !StartsWith(t, UrlTag) && !StartsWith(t, InstructionsTag) by {
      assert t[0] != '>';
    }
  }

  /** In instruction mode a plain line goes into the buffer as it is. */
  lemma PlainStep(q: Parser, t: string)
    requires Valid(q) && q.inInstructions && PlainLine(t)
    ensures Step(q, Strip(t)) == Ok(q.(buffer := Some(q.buffer.value + [t])))
  {
    StripFixed(t);
    StepByKind(q, t);
    if t != "" {
      PlainKind(t);
    }
  }

  /** After the header of a county, every plain line goes into the buffer. */
  lemma {:induction false} ReadInstructions(p: Parser, ls: seq<string>)
    requires Valid(p) && p.inInstructions
    requires forall i :: 0 <= i < |ls| ==> PlainLine(ls[i])
    ensures Run(p, ls) == Ok(p.(buffer := Some(p.buffer.value + ls)))
  {
    if |ls| > 0 {
      var init := ls[..|ls| - 1];
      var q := p.(buffer := Some(p.buffer.value + init));
      ReadInstructions(p, init);
      assert ls[..|ls| - 1] == init;
      assert Run(p, ls) == Step(q, Strip(ls[|ls| - 1]));
      PlainStep(q, ls[|ls| - 1]);
      assert p.buffer.value + init + [ls[|ls| - 1]] == p.buffer.value + ls;
    } else {
      assert p.buffer.value + ls == p.buffer.value;
    }
  }

  /** Running one line is one step on the stripped line. */
  lemma RunOne(p: Parser, line: string)
    ensures Run(p, [line]) == Step(p, Strip(line))
  {
    assert [line][..0] == [];
  }

  /** Reading a line that steps to `q` and then `rest` is reading `rest` from `q`. */
  lemma RunFirst(p: Parser, line: string, rest: seq<string>, q: Parser)
    requires Step(p, Strip(line)) == Ok(q)
    ensures Run(p, [line] + rest) == Run(q, rest)
  {
    RunOne(p, line);
    RunAppend(p, [line], rest);
  }

  /** Outside instruction mode, `>>County: c` starts `c` with an empty entry. */
  lemma OpenCounty(p: Parser, c: string, rest: seq<string>)
    requires Valid(p) && !p.inInstructions && Stripped(c) && '>' !in c
    ensures Run(p, [CountyTag + " " + c] + rest) == Run(p.(data := p.data[c := EmptyEntry], county := Some(c)), rest)
  {
    TagLine(CountyTag, c);
    StepByKind(p, CountyTag + " " + c);
    RunFirst(p, CountyTag + " " + c, rest, p.(data := p.data[c := EmptyEntry], county := Some(c)));
  }

  /** Once a county is started, `>>URL: u` sets its url. */
  lemma SetUrl(p: Parser, u: string, rest: seq<string>)
    requires Valid(p) && p.county.Some? && Stripped(u) && '>' !in u
    ensures Run(p, [UrlTag + " " + u] + rest)
            == Run(p.(data := p.data[p.county.value := p.data[p.county.value].(url := Some(u))]), rest)
  {
    TagLine(UrlTag, u);
    StepByKind(p, UrlTag + " " + u);
    RunFirst(p, UrlTag + " " + u, rest, p.(data := p.data[p.county.value := p.data[p.county.value].(url := Some(u))]));
  }

  /** The instructions tag is its own strip and is read as such. */
  lemma InstructionsKind()
    ensures Strip(InstructionsTag) == InstructionsTag
    ensures KindOf(InstructionsTag) == InstructionsLine
  {
    StripFixed(InstructionsTag);
    TagsExclusive(InstructionsTag);
  }

  /** `>>INSTRUCTIONS:` binds an empty buffer and enters instruction mode. */
  lemma OpenInstructions(p: Parser, rest: seq<string>)
    requires Valid(p)
    ensures Run(p, [InstructionsTag] + rest) == Run(p.(buffer := Some([]), inInstructions := true), rest)
  {
    InstructionsKind();
    StepByKind(p, InstructionsTag);
    RunFirst(p, InstructionsTag, rest, p.(buffer := Some([]), inInstructions := true));
  }

  /** The three header lines of a county leave the parser in instruction mode with an empty
      buffer, the county started and its url set. */
  lemma CountyHeader(c: string, u: string, ls: seq<string>)
    requires Stripped(c) && '>' !in c && Stripped(u) && '>' !in u
    ensures Run(Start, [CountyTag + " " + c, UrlTag + " " + u, InstructionsTag] + ls)
            == Run(Parser(map[c := Entry(Some(u), None)], Some(c), true, Some([])), ls)
  {
    var l1, l2, l3 := CountyTag + " " + c, UrlTag + " " + u, InstructionsTag;
    var p1 := Parser(map[c := EmptyEntry], Some(c), false, None);
    var p2 := p1.(data := map[c := Entry(Some(u), None)]);
    assert [l1, l2, l3] + ls == [l1] + ([l2] + ([l3] + ls));
    assert Run(Start, [l1] + ([l2] + ([l3] + ls))) == Run(p1, [l2] + ([l3] + ls)) by {
      OpenCounty(Start, c, [l2] + ([l3] + ls));
      assert Start.(data := Start.data[c := EmptyEntry], county := Some(c)) == p1;
    }
    assert Run(p1, [l2] + ([l3] + ls)) == Run(p2, [l3] + ls) by {
      SetUrl(p1, u, [l3] + ls);
      assert p1.data[c := p1.data[c].(url := Some(u))] == p2.data;
    }
    assert Run(p2, [l3] + ls) == Run(p2.(buffer := Some([]), inInstructions := true), ls) by {
      OpenInstructions(p2, ls);
    }
  }

  /** The final flush of a county read from its header and lines. */
  lemma FlushCounty(c: string, u: string, ls: seq<string>)
    requires c != ""
    ensures Flush(Parser(map[c := Entry(Some(u), None)], Some(c), true, Some(ls)))
            == Ok(map[c := Entry(Some(u), if |ls| > 0 then Some(Join(ls, "\n")) else None)])
  {
    var e := Entry(Some(u), None);
    if |ls| > 0 {
      assert map[c := e][c := e.(instructions := Some(Join(ls, "\n")))] == map[c := Entry(Some(u), Some(Join(ls, "\n")))];
    }
  }

  /** A county written out as county, url, instructions and its lines parses back into
      exactly that county, url and instructions (an empty list of lines stores none). */
  lemma CountyRoundTrip(c: string, u: string, ls: seq<string>)
    requires Stripped(c) && '>' !in c && Stripped(u) && '>' !in u
    requires forall i :: 0 <= i < |ls| ==> PlainLine(ls[i])
    ensures ParseLines([CountyTag + " " + c, UrlTag + " " + u, InstructionsTag] + ls)
            == Ok(map[c := Entry(Some(u), if |ls| > 0 then Some(Join(ls, "\n")) else None)])
  {
    var p3 := Parser(map[c := Entry(Some(u), None)], Some(c), true, Some([]));
    CountyHeader(c, u, ls);
    ReadInstructions(p3, ls);
    assert [] + ls == ls;
    FlushCounty(c, u, ls);
  }

  /** A url before any county raises `KeyError`, whatever follows. */
  lemma UrlBeforeCounty(line: string, rest: seq<string>)
    requires KindOf(Strip(line)).UrlLine?
    ensures ParseLines([line] + rest) == Err(KeyError)
  {
    StepErrors(Start, Strip(line));
    RunOne(Start, line);
    ErrorIsFinal([line], rest, KeyError);
  }

  /** A text line right after a county, before any `>>INSTRUCTIONS:`, raises
      `UnboundLocalError`, whatever follows. */
  lemma TextBeforeInstructions(c: string, t: string, rest: seq<string>)
    requires Stripped(c) && '>' !in c
    requires PlainLine(t) && t != ""
    ensures ParseLines([CountyTag + " " + c, t] + rest) == Err(UnboundInstructions)
  {
    var l1 := CountyTag + " " + c;
    var p1 := Parser(map[c := EmptyEntry], Some(c), false, None);
    assert [l1, t] + rest == [l1] + ([t] + rest);
    assert Run(Start, [l1] + ([t] + rest)) == Run(p1, [t] + rest) by {
      OpenCounty(Start, c, [t] + rest);
      assert Start.(data := Start.data[c := EmptyEntry], county := Some(c)) == p1;
    }
    assert Run(p1, [t]) == Err(UnboundInstructions) by {
      StripFixed(t);
      PlainKind(t);
      StepByKind(p1, t);
      RunOne(p1, t);
    }
    RunAppend(p1, [t], rest);
  }

  /** `"true"` or `"false"`: whether the sensitive data carries an account number. */
  function AccountFlag(sensitive: map<string, string>): string {
    if "x_account_number" in sensitive && sensitive["x_account_number"] != "" then "true" else "false"
  }

  /** The text of the f-string before the url. */
  function UrlIntro(flag: string): string {
    "\n        search_by_account_number: " + flag + "\n        \n        Navigate to the following URL: "
  }

  /** The f-string `get_instructions` returns: it carries the account flag, the url and the
      instructions, at fixed distances from one another. */
  function Render(flag: string, url: string, instructions: string): (r: string)
    ensures OccursAt(r, flag, 35)
    ensures OccursAt(r, url, |UrlIntro(flag)|)
    ensures OccursAt(r, instructions, |UrlIntro(flag)| + |url| + 18)
  {
    var r := UrlIntro(flag) + url + "\n        \n        " + instructions + "\n        ";
    assert r[35..35 + |flag|] == flag;
    assert r[|UrlIntro(flag)|..|UrlIntro(flag)| + |url|] == url;
    assert r[|UrlIntro(flag)| + |url| + 18..|UrlIntro(flag)| + |url| + 18 + |instructions|] == instructions;
    r
  }

  /** The part of `TestBrowserClient` that reads the prompt: its text and the parsed map. */
  class PromptClient {
    var promptText: string
    var promptJson: PromptData

    constructor (promptText: string)
      ensures this.promptText == promptText && promptJson == map[]
    {
      this.promptText := promptText;
      promptJson := map[];
    }

    /** `prepare_prompt_json()`: on success `prompt_json` is the parsed text; when the parser
        raises, `prompt_json` keeps its old value and the exception is returned. */
    method PreparePromptJson() returns (error: Option<ParseError>)
      modifies this
      ensures promptText == old(promptText)
      ensures match PromptJson(old(promptText))
              case Ok(d) => error.None? && promptJson == d
              case Err(e) => error == Some(e) && promptJson == old(promptJson)
    {
      var lines := Split(promptText, '\n');
      var data: PromptData := map[];
      var county: Option<string> := None;
      var inInstructions := false;
      var instructions: Option<seq<string>> := None;
      error := None;
      var i := 0;
      while i < |lines| && error.None?
        invariant 0 <= i <= |lines|
        invariant promptText == old(promptText) && promptJson == old(promptJson)
        invariant Run(Start, lines[..i]) == if error.Some? then Err(error.value)
                                             else Ok(Parser(data, county, inInstructions, instructions))
      {
        var line := Strip(lines[i]);
        data, county, inInstructions, instructions, error := ReadLine(data, county, inInstructions, instructions, line);
        assert lines[..i + 1][..i] == lines[..i];
        i := i + 1;
      }
      if error.Some? {
        ErrorIsFinal(lines[..i], lines[i..], error.value);
        assert lines[..i] + lines[i..] == lines;
        return;
      }
      assert lines[..i] == lines;
      error := FlushInto(county, instructions, data);
      if error.None? {
        if Truthy(county) && |instructions.value| > 0 {
          data := data[county.value := data[county.value].(instructions := Some(Join(instructions.value, "\n")))];
        }
        promptJson := data;
      }
    }

    /** `get_instructions(sensitive_data)`: `None` unless `x_county` names a county whose url
        and instructions are both non-empty; then the formatted task, which carries that
        url and those instructions. */
    function GetInstructions(sensitive: map<string, string>): (r: Option<string>)
      reads this
      ensures r.Some? <==>
        "x_county" in sensitive && sensitive["x_county"] != "" && sensitive["x_county"] in promptJson
        && promptJson[sensitive["x_county"]].url.GetOr("") != ""
        && promptJson[sensitive["x_county"]].instructions.GetOr("") != ""
      ensures r.Some? ==>
        var e := promptJson[sensitive["x_county"]];
        OccursAt(r.value, AccountFlag(sensitive), 35)
        && OccursAt(r.value, e.url.value, |UrlIntro(AccountFlag(sensitive))|)
        && OccursAt(r.value, e.instructions.value, |UrlIntro(AccountFlag(sensitive))| + |e.url.value| + 18)
    {
      var county := Get(sensitive, "x_county").GetOr("");
      if county == "" then None
      else
        var entry := Get(promptJson, county).GetOr(EmptyEntry);
        var url := entry.url.GetOr("");
        var instructions := entry.instructions.GetOr("");
        if instructions == "" || url == "" then None
        else Some(Render(AccountFlag(sensitive), url, instructions))
    }
  }

  /** The body of the loop of `prepare_prompt_json` on one stripped line: the new locals,
      or the exception the line raises. */
  method ReadLine(data: PromptData, county: Option<string>, inInstructions: bool,
                  instructions: Option<seq<string>>, line: string)
    returns (data': PromptData, county': Option<string>, inInstructions': bool,
             instructions': Option<seq<string>>, error: Option<ParseError>)
    ensures Step(Parser(data, county, inInstructions, instructions), line)
            == if error.Some? then Err(error.value) else Ok(Parser(data', county', inInstructions', instructions'))
  {
    data', county', inInstructions', instructions' := data, county, inInstructions, instructions;
    error := None;
    if StartsWith(line, "#") {
    } else if StartsWith(line, CountyTag) && !inInstructions {
      county' := Some(TagValue(line, CountyTag));
      data' := data[county'.value := EmptyEntry];
      inInstructions' := false;
    } else if StartsWith(line, UrlTag) {
      var url := TagValue(line, UrlTag);
      if county.None? || county.value !in data {
        error := Some(KeyError);
      } else {
        data' := data[county.value := data[county.value].(url := Some(url))];
      }
    } else if StartsWith(line, InstructionsTag) {
      instructions' := Some([]);
      inInstructions' := true;
    } else if inInstructions {
      if StartsWith(line, CountyTag) {
        error := FlushInto(county, instructions, data);
        if error.None? {
          if Truthy(county) && |instructions.value| > 0 {
            data' := data[county.value := data[county.value].(instructions := Some(Join(instructions.value, "\n")))];
          }
          county' := Some(TagValue(line, CountyTag));
          data' := data'[county'.value := EmptyEntry];
          inInstructions' := false;
        }
      } else if instructions.None? {
        error := Some(UnboundInstructions);
      } else {
        instructions' := Some(instructions.value + [line]);
      }
    } else if line == "" {
    } else if instructions.None? {
      error := Some(UnboundInstructions);
    } else {
      instructions' := Some(instructions.value + [line]);
    }
  }

  /** The exception `if current_county and instructions: prompt_data[current_county][...]`
      raises, if any: `UnboundLocalError` when the buffer was never bound, `KeyError` when
      the county has no entry. */
  method FlushInto(county: Option<string>, instructions: Option<seq<string>>, data: PromptData)
    returns (error: Option<ParseError>)
    ensures error.None? <==> Flush(Parser(data, county, false, instructions)).Ok?
    ensures error.Some? ==> Flush(Parser(data, county, false, instructions)) == Err(error.value)
  {
    error := None;
    if Truthy(county) {
      if instructions.None? {
        error := Some(UnboundInstructions);
      } else if |instructions.value| > 0 && county.value !in data {
        error := Some(KeyError);
      }
    }
  }
}
