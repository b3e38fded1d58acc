/** Thread-group extraction from a JMeter thread name. */
module CommonUtils {

  /** `lastIndexOf`: the position of the last `c` in `s`, or -1 when there is none. */
  function LastIndexOf(s: seq<char>, c: char): (r: int)
    ensures -1 <= r < |s|
    ensures r == -1 <==> c !in s
    ensures r >= 0 ==> s[r] == c && forall j :: r < j < |s| ==> s[j] != c
  {
    if s == [] then -1
    else if s[|s| - 1] == c then |s| - 1
    else LastIndexOf(s[..|s| - 1], c)
  }

  /**
   * `parseThreadGroup`: everything before the last space of the thread name;
   * the empty string when the name has no space.
   */
  function ParseThreadGroup(threadName: seq<char>): (group: seq<char>)
    ensures group <= threadName
    ensures ' ' !in threadName ==> group == []
    ensures ' ' in threadName ==>
      |group| < |threadName| && threadName[|group|] == ' ' && ' ' !in threadName[|group| + 1..]
    ensures |threadName| > 0 ==> |group| < |threadName|
  {
    var last := LastIndexOf(threadName, ' ');
    threadName[..if last > 0 then last else 0]
  }

  /** A JMeter thread named "bar baz" belongs to the group "bar". */
  lemma ThreadGroupExample()
    ensures ParseThreadGroup("bar baz") == "bar"
  {
    assert LastIndexOf("bar baz", ' ') == 3 by {
      assert "bar baz"[3] == ' ';
    }
  }
}
