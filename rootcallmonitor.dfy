/**
 * The call-monitor line at the repository root, an earlier revision of the
 * one under a1fbox/.  Parsing, printing and reading a recorded file are the
 * same text there and are modelled once, in A1CallMonitor; what differs is
 * `anonymize`, which masks every number field by cutting its last three
 * characters and appending "xxx", whatever the field holds.
 */
module RootCallMonitor {
  import opened Wrappers
  import opened PyStr
  import opened PyInt
  import Utils
  import CM = A1CallMonitor

  /** `f[:-3] + "xxx"`: the last three characters become "xxx"; a field of
      fewer than three characters becomes "xxx" itself. */
  function MaskTail(f: string): (r: string)
    ensures |r| >= 3 && r[|r| - 3..] == "xxx"
    ensures |f| >= 3 ==> |r| == |f| && r[..|r| - 3] == f[..|f| - 3]
    ensures |f| < 3 ==> r == "xxx"
  {
    if |f| >= 3 then f[..|f| - 3] + "xxx" else "xxx"
  }

  /** Cutting the tail of a masked field gives the mask back; no `;` is
      introduced; a masked field ends in 'x'. */
  lemma MaskTailGood()
    ensures CM.GoodMask(MaskTail)
  {
    forall f: string
      ensures && MaskTail(MaskTail(f)) == MaskTail(f)
              && (';' in MaskTail(f) ==> ';' in f)
              && MaskTail(f)[|MaskTail(f)| - 1] == 'x'
    {
      var r := MaskTail(f);
      assert r == r[..|r| - 3] + "xxx";
      if ';' in r {
        var k :| 0 <= k < |r| && r[k] == ';';
        assert k < |r| - 3 && |f| >= 3 && f[k] == ';';
      }
    }
  }

  /** The two revisions mask a field alike exactly when it has at least three
      characters and is a string of digits or already ends in "xxx". */
  lemma MaskTailVersusAnonymizeNumber(f: string)
    ensures MaskTail(f) == Utils.AnonymizeNumber(f) <==> |f| >= 3 && (IsDigits(f) || f[|f| - 3..] == "xxx")
  {
    var r := MaskTail(f);
    if |f| >= 3 && !IsDigits(f) && f[|f| - 3..] != "xxx" {
      assert r[|r| - 3..] != f[|f| - 3..];
    }
    if |f| >= 3 && !IsDigits(f) && f[|f| - 3..] == "xxx" {
      assert f == f[..|f| - 3] + f[|f| - 3..];
    }
  }

  /** `CallMonitorLine.anonymize` of the root revision. */
  method Anonymize(rawLine: string) returns (r: Result<string, PyError>)
    ensures r == CM.AnonymizedWith(rawLine, MaskTail)
  {
    r := CM.AnonymizeFields(rawLine, MaskTail);
  }

  /** Anonymising twice is anonymising once. */
  lemma AnonymizeIdempotent(raw: string)
    requires CM.AnonymizedWith(raw, MaskTail).Ok?
    ensures CM.AnonymizedWith(CM.AnonymizedWith(raw, MaskTail).value, MaskTail) == CM.AnonymizedWith(raw, MaskTail)
  {
    MaskTailGood();
    CM.AnonymizedWithIdempotent(raw, MaskTail);
  }

  /** An anonymised line parses to the same event with caller and callee masked. */
  lemma AnonymizeParses(raw: string)
    requires CM.Parse(raw).Ok?
    ensures CM.AnonymizedWith(raw, MaskTail).Ok?
    ensures CM.Parse(CM.AnonymizedWith(raw, MaskTail).value) == Ok(CM.MaskNumbers(CM.Parse(raw).value, MaskTail))
  {
    MaskTailGood();
    CM.AnonymizedWithParses(raw, MaskTail);
  }

  /** The root `parse_from_file`, whose discarded anonymisation uses this
      revision's masking, prints and raises exactly what the a1fbox one does. */
  lemma ParseFromFileAgrees(lines: seq<string>, printRaw: bool, anonymize: bool)
    ensures CM.FileOutput(lines, printRaw, anonymize, MaskTail)
            == CM.FileOutput(lines, printRaw, anonymize, Utils.AnonymizeNumber)
  {
    CM.FileOutputMaskIndependent(lines, printRaw, anonymize, MaskTail, Utils.AnonymizeNumber);
  }
}
