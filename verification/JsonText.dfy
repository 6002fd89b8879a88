/** Pieces of canonical JSON text: decimal counters that read back, comma-joined members, and how long they are. */
module JsonText {
  import opened Common

  predicate IsDigit(c: char) {
    '0' <= c <= '9'
  }

  function Digit(d: nat): char
    requires d < 10
  {
    '0' + d as char
  }

  function Digits(n: nat): (text: string)
    ensures |text| >= 1 && forall c :: c in text ==> IsDigit(c)
  {
    if n < 10 then [Digit(n)] else Digits(n / 10) + [Digit(n % 10)]
  }

  /** Reads a decimal text without superfluous leading zeros. */
  function Value(text: string): Option<nat> {
    if text == [] || !IsDigit(text[|text| - 1]) then None
    else
      var last := (text[|text| - 1] - '0') as nat;
      if |text| == 1 then Some(last)
      else match Value(text[..|text| - 1])
        case Some(front) => if front == 0 then None else Some(10 * front + last)
        case None => None
  }

  lemma {:induction false} ValueOfDigits(n: nat)
    ensures Value(Digits(n)) == Some(n)
  {
    if n >= 10 {
      ValueOfDigits(n / 10);
      var text := Digits(n);
      assert text[..|text| - 1] == Digits(n / 10);
    }
  }

  lemma {:induction false} DigitsOfValue(text: string)
    requires Value(text).Some?
    ensures Digits(Value(text).value) == text
  {
    if |text| > 1 {
      var front, n := text[..|text| - 1], Value(text).value;
      DigitsOfValue(front);
      assert n / 10 == Value(front).value && n % 10 == (text[|text| - 1] - '0') as nat;
      assert text == front + [text[|text| - 1]];
    } else {
      assert text == [text[0]];
    }
  }

  /** A smaller counter is never longer. */
  lemma {:induction false} DigitsMonotone(a: nat, b: nat)
    requires a <= b
    ensures |Digits(a)| <= |Digits(b)|
    decreases b
  {
    if b >= 10 && a >= 10 {
      DigitsMonotone(a / 10, b / 10);
    }
  }

  // ---- Members of an array ----

  function Join(members: seq<string>): string {
    if members == [] then ""
    else if |members| == 1 then members[0]
    else Join(members[..|members| - 1]) + "," + members[|members| - 1]
  }

  /** A further member costs its own length and, unless it is the first, one comma. */
  lemma JoinAppend(members: seq<string>, x: string)
    ensures |Join(members + [x])| == |Join(members)| + |x| + if members == [] then 0 else 1
  {
    assert (members + [x])[..|members|] == members;
  }

  lemma {:induction false} JoinPrefix(members: seq<string>, more: seq<string>)
    ensures |Join(members)| <= |Join(members + more)|
    decreases |more|
  {
    if more == [] {
      assert members + more == members;
    } else {
      var front, last := more[..|more| - 1], more[|more| - 1];
      JoinPrefix(members, front);
      assert members + more == (members + front) + [last];
      JoinAppend(members + front, last);
    }
  }

  /** Replacing one member by a text that is no longer keeps the whole no longer. */
  lemma {:induction false} JoinReplace(front: seq<string>, longer: string, shorter: string, back: seq<string>)
    requires |shorter| <= |longer|
    ensures |Join(front + [shorter] + back)| <= |Join(front + [longer] + back)|
    decreases |back|
  {
    if back == [] {
      assert front + [shorter] + back == front + [shorter] && front + [longer] + back == front + [longer];
      JoinAppend(front, shorter);
      JoinAppend(front, longer);
    } else {
      var rest, last := back[..|back| - 1], back[|back| - 1];
      JoinReplace(front, longer, shorter, rest);
      assert front + [shorter] + back == (front + [shorter] + rest) + [last];
      assert front + [longer] + back == (front + [longer] + rest) + [last];
      JoinAppend(front + [shorter] + rest, last);
      JoinAppend(front + [longer] + rest, last);
    }
  }
}
