/** Names built by one layer are accepted by the next. */
module DnsNames {
  import opened Prelude

  const RUN_NAME_MAX := 31
  const SESSION_NAME_MAX := 40
  const TASK_ID_MAX := 63

  /** The characters that stand for a step in its session's name, and for a continuation in its task's id. */
  const DIGEST_LENGTH := 8
  const SUFFIX_LENGTH := 12

  type StepDigest = string -> string

  /** Every step is stood for by eight hexadecimal characters. */
  ghost predicate Hexadecimal(stepDigest: StepDigest) {
    forall step :: IsHex(stepDigest(step), DIGEST_LENGTH)
  }

  function SessionName(run: string, step: string, stepDigest: StepDigest): string {
    run + "-" + stepDigest(step)
  }

  lemma LabelWithSuffix(name: string, suffix: string, max: nat, n: nat)
    requires IsLabel(name, max) && IsHex(suffix, n) && n > 0
    ensures IsLabel(name + "-" + suffix, max + 1 + n)
  {
    var whole := name + "-" + suffix;
    forall i | 0 <= i < |whole| ensures IsLabelChar(whole[i]) {
      if i < |name| {
        assert whole[i] == name[i];
      } else if i > |name| {
        assert whole[i] == suffix[i - |name| - 1];
      }
    }
    assert whole[0] == name[0];
    assert whole[|whole| - 1] == suffix[n - 1];
  }

  /** An accepted run name gives session names that sessions accept. */
  lemma SessionNameFits(run: string, step: string, stepDigest: StepDigest)
    requires IsLabel(run, RUN_NAME_MAX) && Hexadecimal(stepDigest)
    ensures IsLabel(SessionName(run, step, stepDigest), SESSION_NAME_MAX)
  {
    LabelWithSuffix(run, stepDigest(step), RUN_NAME_MAX, DIGEST_LENGTH);
  }

  /** An accepted session name gives continuation task ids that the runtime accepts. */
  lemma TaskIdFits(name: string, suffix: string)
    requires IsLabel(name, SESSION_NAME_MAX) && IsHex(suffix, SUFFIX_LENGTH)
    ensures IsLabel(name + "-" + suffix, TASK_ID_MAX)
  {
    LabelWithSuffix(name, suffix, SESSION_NAME_MAX, SUFFIX_LENGTH);
  }
}
