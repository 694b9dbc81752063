/** The checks that the web and cmd probes make on a text: a pattern, possibly inverted or optional, and a second
    pattern on one of its groups. Patterns are parameters. */
module TextChecks {
  import opened Records

  /** `find` gives the whole match followed by one text per group, or nothing. */
  datatype Regexp = Regexp(groups: nat, find: string -> seq<string>)

  ghost predicate Lawful(r: Regexp) {
    forall s :: r.find(s) == [] || |r.find(s)| == r.groups + 1
  }

  datatype Checks = Checks(
    regexp: Option<Regexp>, invert: bool, required: Option<bool>, group: int,
    capture: Option<Regexp>, captureInvert: bool)

  predicate Required(c: Checks) {
    c.required.None? || c.required.value
  }

  /** The settings as they are configured: patterns are texts, an empty one means none. */
  datatype Settings = Settings(
    regex: string, invert: bool, required: Option<bool>, group: int, captureRegex: string, captureInvert: bool)

  /** What holds of the checks of every probe that was constructed. */
  ghost predicate Compiled(c: Checks) {
    && (c.regexp.None? ==> c.group <= 0 && c.capture.None?)
    && (c.regexp.Some? ==> Lawful(c.regexp.value) && 0 <= c.group <= c.regexp.value.groups)
    && (c.invert && c.regexp.Some? ==> c.group == 0)
    && (c.capture.Some? ==> c.group > 0)
  }

  function CompileRegex(compile: string -> Option<Regexp>, s: Settings): (r: Option<Checks>)
    requires forall t | compile(t).Some? :: Lawful(compile(t).value)
    ensures r.Some? ==> Compiled(r.value)
    ensures r.Some? ==>
      && r.value.regexp == (if s.regex == "" then None else compile(s.regex))
      && r.value.capture == (if s.captureRegex == "" then None else compile(s.captureRegex))
      && r.value.invert == s.invert && r.value.captureInvert == s.captureInvert
      && r.value.required == s.required && r.value.group == s.group
    ensures r.None? <==>
            if s.regex == "" then s.group > 0 || s.captureRegex != ""
            else
              || s.group < 0
              || (s.group > 0 && s.invert)
              || (s.group <= 0 && s.captureRegex != "")
              || compile(s.regex).None?
              || s.group > compile(s.regex).value.groups
              || (s.captureRegex != "" && compile(s.captureRegex).None?)
  {
    if s.regex == "" then
      if s.group > 0 || s.captureRegex != "" then None
      else Some(Checks(None, s.invert, s.required, s.group, None, s.captureInvert))
    else if s.group < 0 || (s.invert && s.group > 0) || (s.captureRegex != "" && s.group <= 0) then None
    else
      var r := compile(s.regex);
      if r.None? || s.group > r.value.groups then None
      else if s.captureRegex == "" then Some(Checks(r, s.invert, s.required, s.group, None, s.captureInvert))
      else
        var cr := compile(s.captureRegex);
        if cr.None? then None else Some(Checks(r, s.invert, s.required, s.group, cr, s.captureInvert))
  }

  // ----- the web probe's check of a body -----

  datatype BodyCheck = BodyCheck(matched: bool, capture: string, captureMatched: Option<bool>, err: bool)

  /** The body is `None` if it cannot be read. */
  function CheckBody(c: Checks, body: Option<string>): BodyCheck
    requires Compiled(c)
  {
    if c.regexp.None? then BodyCheck(false, "", None, false)
    else if body.None? then BodyCheck(false, "", None, true)
    else
      var matches := c.regexp.value.find(body.value);
      var matched := |matches| > 0;
      var capture := if matched && c.group > 0 then matches[c.group] else "";
      var cm := if c.capture.None? then None else Some(c.capture.value.find(capture) != []);
      if cm.Some? && cm.value == c.captureInvert then BodyCheck(matched, capture, cm, true)
      else if !Required(c) then BodyCheck(matched, capture, cm, false)
      else BodyCheck(matched, capture, cm, matched == c.invert)
  }

  // ----- the cmd probe's check of its output -----

  datatype OutputCheck = OutputCheck(
    matched: bool, condition: bool, capture: string, captureMatched: bool, captureCondition: bool)

  function CheckStdout(c: Checks, text: string): OutputCheck
    requires Compiled(c)
  {
    if c.regexp.None? then OutputCheck(false, true, "", false, true)
    else
      var matches := c.regexp.value.find(text);
      var matched := |matches| > 0;
      var capture := if matched && c.group > 0 then matches[c.group] else "";
      if c.capture.None? then OutputCheck(matched, matched != c.invert, capture, false, true)
      else
        var cm := c.capture.value.find(capture) != [];
        OutputCheck(matched, matched != c.invert, capture, cm, cm != c.captureInvert)
  }

  // ----- what the checks ask of a text -----

  ghost predicate Matches(c: Checks, text: string) {
    c.regexp.Some? && c.regexp.value.find(text) != []
  }

  ghost function Captured(c: Checks, text: string): string {
    if Matches(c, text) && 0 < c.group < |c.regexp.value.find(text)| then c.regexp.value.find(text)[c.group] else ""
  }

  /** The pattern, unless optional, matches or is forbidden and does not; the same for the second pattern. */
  ghost predicate Holds(c: Checks, text: string) {
    && (c.regexp.Some? && c.required != Some(false) ==> Matches(c, text) != c.invert)
    && (c.capture.Some? ==> (c.capture.value.find(Captured(c, text)) != []) != c.captureInvert)
  }

  /** Both probes ask the same of a text: where the web probe sees no error the cmd probe sees its conditions met. */
  lemma ChecksMean(c: Checks, text: string)
    requires Compiled(c)
    ensures !CheckBody(c, Some(text)).err <==> Holds(c, text)
    ensures var o := CheckStdout(c, text);
      (c.regexp.None? || !Required(c) || o.condition) && (c.capture.None? || o.captureCondition) <==> Holds(c, text)
    ensures CheckBody(c, None).err <==> c.regexp.Some?
  {
  }

  /** What the cmd probe's check reports of its output, besides the conditions: whether the pattern matched, the text of
      the group, and whether the second pattern matched that. */
  lemma OutputMeans(c: Checks, text: string)
    requires Compiled(c)
    ensures var o := CheckStdout(c, text);
      && o.matched == Matches(c, text)
      && o.capture == Captured(c, text)
      && (c.capture.Some? ==> o.captureMatched == (c.capture.value.find(Captured(c, text)) != []))
  {
  }
}
