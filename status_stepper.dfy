/** The five-step progress indicator and the status label formatter (components/StatusStepper.tsx). */
module StatusStepper {
  import opened Types
  import opened Text

  /** The happy path, in order; `cancelled` is not a step. */
  const Steps: seq<Status> := [Pending, Accepted, PickedUp, InTransit, Delivered]

  /** `Array.prototype.indexOf`: the first position of `x`, or -1. */
  function IndexOf(s: seq<Status>, x: Status): (r: int)
    ensures -1 <= r < |s|
    ensures r == -1 <==> x !in s
    ensures r >= 0 ==> s[r] == x && x !in s[..r]
  {
    if s == [] then -1
    else if s[0] == x then 0
    else
      var k := IndexOf(s[1..], x);
      if k == -1 then -1
      else
        assert s[..k + 1] == [s[0]] + s[1..][..k];
        k + 1
  }

  /** getStatusIndex: -1 for a cancelled delivery, else the step position. */
  function StatusIndex(s: Status): (r: int)
    ensures -1 <= r < |Steps|
    ensures r == -1 <==> s == Cancelled
    ensures r >= 0 ==> Steps[r] == s
  {
    if s == Cancelled then -1 else IndexOf(Steps, s)
  }

  /** The positions are 0..4 along pending, accepted, picked_up, in_transit, delivered. */
  lemma StatusIndexValues()
    ensures StatusIndex(Pending) == 0 && StatusIndex(Accepted) == 1 && StatusIndex(PickedUp) == 2
    ensures StatusIndex(InTransit) == 3 && StatusIndex(Delivered) == 4 && StatusIndex(Cancelled) == -1
  {
    forall i | 0 <= i < |Steps| ensures StatusIndex(Steps[i]) == i {
      StepPositionIsIndex(i);
    }
    assert Steps[0] == Pending && Steps[1] == Accepted && Steps[2] == PickedUp;
    assert Steps[3] == InTransit && Steps[4] == Delivered;
  }

  /** The i-th step's index is i: the index is strictly increasing along the step sequence. */
  lemma StepPositionIsIndex(i: nat)
    requires i < |Steps|
    ensures StatusIndex(Steps[i]) == i
  {
    var r := StatusIndex(Steps[i]);
    assert Steps[r] == Steps[i];
  }

  /** Different statuses never share an index. */
  lemma StatusIndexInjective(a: Status, b: Status)
    requires StatusIndex(a) == StatusIndex(b)
    ensures a == b
  {
  }

  // ----- formatStatus: split on "_", capitalise each word, join with " " -----

  /** The first position of `c` in `s`. */
  function FirstIndex(s: string, c: char): (k: nat)
    requires c in s
    ensures k < |s| && s[k] == c && c !in s[..k]
  {
    if s[0] == c then 0
    else
      var k := FirstIndex(s[1..], c) + 1;
      assert s[..k] == [s[0]] + s[1..][..k - 1];
      k
  }

  /** `String.prototype.split` on a single-character separator. */
  function Split(s: string, sep: char): (r: seq<string>)
    ensures |r| >= 1
    decreases |s|
  {
    if sep !in s then [s]
    else
      var k := FirstIndex(s, sep);
      [s[..k]] + Split(s[k + 1..], sep)
  }

  /** `Array.prototype.join`. */
  function Join(words: seq<string>, sep: string): string {
    if words == [] then ""
    else if |words| == 1 then words[0]
    else words[0] + sep + Join(words[1..], sep)
  }

  /** `word.charAt(0).toUpperCase() + word.slice(1)`. */
  function Capitalize(word: string): string {
    if word == [] then [] else [UpperChar(word[0])] + word[1..]
  }

  /** `words.map(capitalise)`. */
  function CapitalizeAll(words: seq<string>): (r: seq<string>)
    ensures |r| == |words|
  {
    if words == [] then [] else [Capitalize(words[0])] + CapitalizeAll(words[1..])
  }

  /** formatStatus, exactly as the source composes it. */
  function FormatStatus(status: string): string {
    Join(CapitalizeAll(Split(status, '_')), " ")
  }

  /** What formatStatus does to the character at position i: an underscore becomes a space,
      the first character of each word is upper-cased, everything else is kept. */
  function TitleCharAt(s: string, i: nat): char
    requires i < |s|
  {
    if s[i] == '_' then ' '
    else if i == 0 || s[i - 1] == '_' then UpperChar(s[i])
    else s[i]
  }

  lemma CapitalizeAllCons(w: string, ws: seq<string>)
    ensures CapitalizeAll([w] + ws) == [Capitalize(w)] + CapitalizeAll(ws)
  {
    assert ([w] + ws)[1..] == ws;
  }

  lemma JoinCons(w: string, ws: seq<string>, sep: string)
    requires ws != []
    ensures Join([w] + ws, sep) == w + sep + Join(ws, sep)
  {
    assert ([w] + ws)[1..] == ws;
  }

  lemma SplitAtFirst(s: string, sep: char)
    requires sep in s
    ensures var k := FirstIndex(s, sep);
            Split(s, sep) == [s[..k]] + Split(s[k + 1..], sep)
  {
  }

  /** One step of FormatStatus: the first word, a space, and the rest formatted the same way. */
  lemma FormatStatusUnfold(s: string)
    requires '_' in s
    ensures var k := FirstIndex(s, '_');
            FormatStatus(s) == Capitalize(s[..k]) + " " + FormatStatus(s[k + 1..])
  {
    var k := FirstIndex(s, '_');
    var rest := Split(s[k + 1..], '_');
    SplitAtFirst(s, '_');
    CapitalizeAllCons(s[..k], rest);
    var caps := CapitalizeAll(rest);
    assert |caps| >= 1;
    JoinCons(Capitalize(s[..k]), caps, " ");
  }

  /** On a word without underscores, capitalising follows the character rule. */
  lemma CapitalizeIsTitleCase(w: string)
    requires '_' !in w
    ensures |Capitalize(w)| == |w|
    ensures forall i :: 0 <= i < |w| ==> Capitalize(w)[i] == TitleCharAt(w, i)
  {
    forall i | 0 <= i < |w| ensures Capitalize(w)[i] == TitleCharAt(w, i) {
      assert w[i] != '_';
      if i > 0 { assert w[i - 1] != '_'; }
    }
  }

  /** Before the first underscore, the rule reads the same on the first word as on the whole. */
  lemma TitleCharInHead(s: string, k: nat, i: nat)
    requires i < k < |s| && '_' !in s[..k]
    ensures TitleCharAt(s[..k], i) == TitleCharAt(s, i)
  {
    assert s[..k][i] == s[i];
    if i > 0 { assert s[..k][i - 1] == s[i - 1]; }
  }

  /** After the underscore at `k`, the rule reads the same on the rest as on the whole. */
  lemma TitleCharInRest(s: string, k: nat, j: nat)
    requires k + 1 + j < |s| && s[k] == '_'
    ensures TitleCharAt(s[k + 1..], j) == TitleCharAt(s, k + 1 + j)
  {
    assert s[k + 1..][j] == s[k + 1 + j];
    if j > 0 { assert s[k + 1..][j - 1] == s[k + j]; }
  }

  /** formatStatus preserves length and maps each character as TitleCharAt says. */
  lemma {:induction false} FormatStatusIsTitleCase(s: string)
    ensures |FormatStatus(s)| == |s|
    ensures forall i :: 0 <= i < |s| ==> FormatStatus(s)[i] == TitleCharAt(s, i)
    decreases |s|
  {
    if '_' !in s {
      assert FormatStatus(s) == Capitalize(s);
      CapitalizeIsTitleCase(s);
    } else {
      var k := FirstIndex(s, '_');
      var rest := s[k + 1..];
      FormatStatusUnfold(s);
      FormatStatusIsTitleCase(rest);
      CapitalizeIsTitleCase(s[..k]);
      var f := FormatStatus(s);
      var head := Capitalize(s[..k]);
      var tail := FormatStatus(rest);
      assert f == head + " " + tail;
      forall i | 0 <= i < |s| ensures f[i] == TitleCharAt(s, i) {
        if i < k {
          assert f[i] == head[i];
          TitleCharInHead(s, k, i);
        } else if i > k {
          assert f[i] == tail[i - k - 1];
          TitleCharInRest(s, k, i - k - 1);
        }
      }
    }
  }

  /** A text that follows formatStatus's character rule is what formatStatus gives. */
  lemma FormatsAs(name: string, text: string)
    requires |text| == |name|
    requires forall i :: 0 <= i < |name| ==> text[i] == TitleCharAt(name, i)
    ensures FormatStatus(name) == text
  {
    FormatStatusIsTitleCase(name);
  }

  /** "picked_up" is shown as "Picked Up". */
  lemma PickedUpLabel()
    ensures FormatStatus("picked_up") == "Picked Up"
  {
    FormatsAs("picked_up", "Picked Up");
  }

  // ----- rendering -----

  datatype Step = Step(title: string, completed: bool, active: bool)

  datatype StepperView =
    | CancelledNotice(text: string)
    | CompactBar(title: string, widthPercent: real)
    | FullSteps(steps: seq<Step>)

  /** The compact bar's width: (index + 1) / 5 of the full width, in percent. */
  function ProgressPercent(index: int): real {
    ((index + 1) as real / |Steps| as real) * 100.0
  }

  /** Step i of the full view is completed up to and including the current index and active at it. */
  function StepAt(currentIndex: int, i: nat): Step
    requires i < |Steps|
  {
    Step(FormatStatus(StatusName(Steps[i])), i <= currentIndex, i == currentIndex)
  }

  /** What the stepper renders for a status, compact or full. */
  function Render(current: Status, compact: bool): StepperView {
    if current == Cancelled then
      CancelledNotice(if compact then "Cancelled" else "This delivery has been cancelled")
    else if compact then
      CompactBar(FormatStatus(StatusName(current)), ProgressPercent(StatusIndex(current)))
    else
      FullSteps(seq(|Steps|, i requires 0 <= i < |Steps| => StepAt(StatusIndex(current), i)))
  }

  /** A cancelled delivery shows only the cancelled notice, and nothing else does. */
  lemma CancelledRendersNotice(current: Status, compact: bool)
    ensures Render(current, compact).CancelledNotice? <==> current == Cancelled
  {
  }

  /** In the full view the completed steps form a prefix ending at the current step, which is
      the one and only active step. */
  lemma FullStepsShape(current: Status)
    requires current != Cancelled
    ensures Render(current, false).FullSteps?
    ensures var steps := Render(current, false).steps;
            |steps| == 5
            && (forall i :: 0 <= i < 5 ==> (steps[i].completed <==> i <= StatusIndex(current)))
            && (forall i, j :: 0 <= i <= j < 5 && steps[j].completed ==> steps[i].completed)
            && steps[StatusIndex(current)].active
            && (forall i :: 0 <= i < 5 && steps[i].active ==> i == StatusIndex(current))
  {
    var steps := Render(current, false).steps;
    assert forall i :: 0 <= i < 5 ==> steps[i] == StepAt(StatusIndex(current), i);
  }

  /** The compact bar is 20% for pending, 100% for delivered, and always within (0, 100]. */
  lemma CompactProgressBounds(current: Status)
    requires current != Cancelled
    ensures 0.0 < ProgressPercent(StatusIndex(current)) <= 100.0
    ensures current == Pending ==> ProgressPercent(StatusIndex(current)) == 20.0
    ensures current == Delivered ==> ProgressPercent(StatusIndex(current)) == 100.0
  {
    StatusIndexValues();
  }
}
