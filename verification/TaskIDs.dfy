/** Task identifiers: "{runID}:{stepName}". */
module TaskIDs {
  import opened Options

  function MakeTaskID(runID: string, stepName: string): string {
    runID + ":" + stepName
  }

  /** Position of the first colon, or the length when there is none. */
  function FirstColon(id: string): (i: nat)
    ensures i <= |id|
    ensures i < |id| ==> id[i] == ':'
    ensures forall k :: 0 <= k < i ==> id[k] != ':'
  {
    if id == "" || id[0] == ':' then 0
    else
      var i := FirstColon(id[1..]);
      assert forall k :: 0 < k < 1 + i ==> id[k] == id[1..][k - 1];
      1 + i
  }

  function SplitTaskID(id: string): Option<(string, string)> {
    var i := FirstColon(id);
    if i == |id| then None else Some((id[..i], id[i + 1..]))
  }

  /** Splitting inverts making exactly when the run ID holds no colon; the step name may. */
  lemma SplitMakeRoundTrip(runID: string, stepName: string)
    ensures SplitTaskID(MakeTaskID(runID, stepName)) == Some((runID, stepName)) <==> ':' !in runID
  {
    var id := MakeTaskID(runID, stepName);
    var i := FirstColon(id);
    assert id[|runID|] == ':';
    if ':' !in runID {
      assert forall k :: 0 <= k < |runID| ==> id[k] == runID[k];
      assert i == |runID|;
      assert id[..i] == runID && id[i + 1..] == stepName;
    } else {
      var k :| 0 <= k < |runID| && runID[k] == ':';
      assert id[k] == ':';
      assert |id[..i]| < |runID|;
    }
  }
}
