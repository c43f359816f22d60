/** The System page: the colour of a status label and of its indicator dot,
    both chosen from the lower-cased status text, and the diagnostic-output
    log that each finished diagnostic appends to and the Clear button empties. */
module SystemPage {
  import opened JsValues
  import opened Text

  /** The four colour families a status is shown in. */
  datatype Tone = Green | Yellow | Red | Gray

  function ToneName(t: Tone): string {
    match t
    case Green => "green"
    case Yellow => "yellow"
    case Red => "red"
    case Gray => "gray"
  }

  /** The grouping of status words shared by both lookups: running
      states are green, monitoring is yellow, stopped states are red and
      every other word is gray. */
  function ToneOf(status: string): Tone {
    var l := Lower(status);
    if l in {"online", "active", "connected"} then Green
    else if l == "monitoring" then Yellow
    else if l in {"offline", "inactive"} then Red
    else Gray
  }

  /** The text class of a tone. */
  function TextClass(t: Tone): string {
    "text-" + ToneName(t) + "-400"
  }

  /** The background class of a tone's dot. */
  function DotClass(t: Tone): string {
    "bg-" + ToneName(t) + "-500"
  }

  lemma TextClasses()
    ensures TextClass(Green) == "text-green-400" && TextClass(Yellow) == "text-yellow-400"
    ensures TextClass(Red) == "text-red-400" && TextClass(Gray) == "text-gray-400"
  {
  }

  lemma DotClasses()
    ensures DotClass(Green) == "bg-green-500" && DotClass(Yellow) == "bg-yellow-500"
    ensures DotClass(Red) == "bg-red-500" && DotClass(Gray) == "bg-gray-500"
  {
  }

  /** The text class for a status label, one case of the switch after another. */
  function StatusColor(status: string): (r: string)
    ensures r == TextClass(ToneOf(status))
  {
    TextClasses();
    var l := Lower(status);
    if l == "online" || l == "active" || l == "connected" then "text-green-400"
    else if l == "monitoring" then "text-yellow-400"
    else if l == "offline" || l == "inactive" then "text-red-400"
    else "text-gray-400"
  }

  /** The background class for a status dot, with the same cases as `StatusColor`. */
  function StatusDot(status: string): (r: string)
    ensures r == DotClass(ToneOf(status))
  {
    DotClasses();
    var l := Lower(status);
    if l == "online" || l == "active" || l == "connected" then "bg-green-500"
    else if l == "monitoring" then "bg-yellow-500"
    else if l == "offline" || l == "inactive" then "bg-red-500"
    else "bg-gray-500"
  }

  /** Distinct tones have distinct names, so the family can be read back
      from either class. */
  lemma ToneNameInjective(t: Tone, u: Tone)
    ensures ToneName(t) == ToneName(u) <==> t == u
  {
    if t != u {
      assert ToneName(t)[0] != ToneName(u)[0] || |ToneName(t)| != |ToneName(u)|;
    }
  }

  /** The label and the dot of one status are always in the same colour family. */
  lemma ColorAndDotAgree(status: string)
    ensures exists t: Tone :: StatusColor(status) == TextClass(t) && StatusDot(status) == DotClass(t)
  {
    var t := ToneOf(status);
    assert StatusColor(status) == TextClass(t);
  }

  /** The lookups ignore letter case: a status and its lower-cased form
      get the same classes. */
  lemma StatusIgnoresCase(status: string)
    ensures StatusColor(Lower(status)) == StatusColor(status)
    ensures StatusDot(Lower(status)) == StatusDot(status)
  {
    LowerIdempotent(status);
  }

  /** The status the page passes to the lookups: a missing status becomes "". */
  function ShownStatus(s: Option<string>): (r: string)
    ensures s.Some? && s.value != "" ==> r == s.value
  {
    match s
    case None => ""
    case Some(v) => v
  }

  /** A missing or empty status, and any word outside the three groups, is gray. */
  lemma MissingStatusIsGray(s: Option<string>)
    requires s.None? || s.value == ""
    ensures StatusColor(ShownStatus(s)) == "text-gray-400"
    ensures StatusDot(ShownStatus(s)) == "bg-gray-500"
  {
    assert Lower("") == "";
  }

  /** The diagnostic output shown under the diagnostic buttons. */
  class DiagnosticLog {
    var output: string

    /** The page starts with an empty log. */
    constructor ()
      ensures output == ""
      ensures !Shown()
    {
      output := "";
    }

    /** The output panel is rendered only while the log is non-empty. */
    predicate Shown()
      reads this
    {
      output != ""
    }

    /** A finished diagnostic adds a line break and its output to the log;
        what was there before stays at the front. */
    method Append(result: string)
      modifies this
      ensures output == old(output) + "\n" + result
      ensures IsPrefix(old(output), output)
      ensures Shown()
    {
      output := output + "\n" + result;
      assert output[..|old(output)|] == old(output);
    }

    /** The Clear button empties the log and hides the panel. */
    method Clear()
      modifies this
      ensures output == ""
      ensures !Shown()
    {
      output := "";
    }
  }
}
