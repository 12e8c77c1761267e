/** Display names joined as "first last", and how to take them apart again. */
module Names {

  /** The text before the first space and the text after it; the whole string
      and "" when there is no space. */
  function SplitAtFirstSpace(s: string): (string, string) {
    if s == [] then ([], [])
    else if s[0] == ' ' then ([], s[1..])
    else
      var (before, after) := SplitAtFirstSpace(s[1..]);
      ([s[0]] + before, after)
  }

  /** A first name without spaces and any last name are recovered from "first last". */
  lemma {:induction false} SplitJoined(first: string, last: string)
    requires ' ' !in first
    ensures SplitAtFirstSpace(first + " " + last) == (first, last)
  {
    if first == [] {
      assert first + " " + last == [' '] + last;
    } else {
      var joined := first + " " + last;
      assert joined[0] == first[0] && joined[0] != ' ';
      assert joined[1..] == first[1..] + " " + last;
      SplitJoined(first[1..], last);
      assert [first[0]] + first[1..] == first;
    }
  }
}
