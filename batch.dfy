/** `process_project` of `Compress_html.py` and `Obfuscate_js.py`: after an
    optional confirmation, every collected file is handed to the external tool
    and the successes are counted. */
module Batch {
  import opened Wrappers
  import opened Strings
  import opened Paths
  import opened Config
  import opened Sequences

  /** How a run ends: cancelled at the prompt, nothing to do, or finished with
      `successes` of `total` files processed. */
  datatype Outcome = Cancelled | NoFiles | Finished(successes: nat, total: nat)

  /** The success counter: `step` is the external tool's verdict on a file. */
  method CountSuccesses(files: seq<Path>, step: Path -> bool) returns (count: nat)
    ensures count == |Filter(files, step)|
  {
    count := 0;
    for i := 0 to |files|
      invariant count == |Filter(files[..i], step)|
    {
      assert files[..i + 1][..i] == files[..i];
      if step(files[i]) {
        count := count + 1;
      }
    }
    assert files[..|files|] == files;
  }

  /** The count never exceeds the number of files, and reaches it exactly when
      every file succeeds. */
  lemma CountBounds(files: seq<Path>, step: Path -> bool)
    ensures |Filter(files, step)| <= |files|
    ensures |Filter(files, step)| == |files| <==> forall i :: 0 <= i < |files| ==> step(files[i])
    ensures (forall i :: 0 <= i < |files| ==> !step(files[i])) ==> |Filter(files, step)| == 0
  {
    FilterKeepsAll(files, step);
    if forall i :: 0 <= i < |files| ==> !step(files[i]) {
      FilterUniform(files, step, false);
    }
  }

  /** `process_project`: `confirm` is the `confirm_before_process` setting and
      `answer` the text typed at the prompt, which only `y` in any case accepts. */
  method ProcessProject(confirm: string, answer: string, files: seq<Path>, step: Path -> bool)
    returns (r: Result<Outcome>)
    ensures GetBoolean(confirm).Err? ==> r == Err(GetBoolean(confirm).error)
    ensures GetBoolean(confirm) == Ok(true) && Lower(answer) != "y" ==> r == Ok(Cancelled)
    ensures var proceed := GetBoolean(confirm) == Ok(false) || (GetBoolean(confirm) == Ok(true) && Lower(answer) == "y");
      && (proceed && files == [] ==> r == Ok(NoFiles))
      && (proceed && files != [] ==> r == Ok(Finished(|Filter(files, step)|, |files|)))
  {
    var ask := GetBoolean(confirm);
    if ask.Err? {
      return Err(ask.error);
    }
    if ask.value && Lower(answer) != "y" {
      return Ok(Cancelled);
    }
    if files == [] {
      return Ok(NoFiles);
    }
    var count := CountSuccesses(files, step);
    r := Ok(Finished(count, |files|));
  }
}
