/**
 * The broadcast loop of `broadcast_confirm_or_cancel`: one send per
 * registered id, in list order. Whether a send goes through is up to the
 * platform, so the ids whose send raises are given as a parameter; a failed
 * send is counted and the loop carries on. The pause between sends is not
 * modelled.
 */
module Broadcast {
  import opened Strings
  import opened Platform

  /** The sends the loop makes: one to each id, in order. */
  function Attempts(ids: seq<int>, text: string): (sends: seq<Effect>)
    ensures |sends| == |ids|
    ensures forall i :: 0 <= i < |ids| ==> sends[i] == Send(ids[i], text)
  {
    seq(|ids|, i requires 0 <= i < |ids| => Send(ids[i], text))
  }

  /** The ids, in order, whose send goes through. */
  function Delivered(ids: seq<int>, failing: set<int>): seq<int> {
    if ids == [] then []
    else
      var last := ids[|ids| - 1];
      Delivered(ids[..|ids| - 1], failing) + (if last in failing then [] else [last])
  }

  /** The ids, in order, whose send raises. */
  function Undelivered(ids: seq<int>, failing: set<int>): seq<int> {
    if ids == [] then []
    else
      var last := ids[|ids| - 1];
      Undelivered(ids[..|ids| - 1], failing) + (if last in failing then [last] else [])
  }

  /** Every attempted id is either delivered or not, never both and never skipped. */
  lemma {:induction false} DeliveryPartitions(ids: seq<int>, failing: set<int>)
    ensures |Delivered(ids, failing)| + |Undelivered(ids, failing)| == |ids|
    ensures forall x :: x in Delivered(ids, failing) <==> x in ids && x !in failing
    ensures forall x :: x in Undelivered(ids, failing) <==> x in ids && x in failing
  {
    if ids != [] {
      var init := ids[..|ids| - 1];
      DeliveryPartitions(init, failing);
      assert ids == init + [ids[|ids| - 1]];
    }
  }

  /** The final report to the administrator. */
  function Report(sent: nat, failed: nat): string {
    "Готово. Отправлено: " + (DecimalDigits(sent) + (". Не доставлено: " + (DecimalDigits(failed) + ".")))
  }

  /** The report names both counts unambiguously: two reports read alike only for the same counts. */
  lemma ReportDeterminesCounts(sent1: nat, failed1: nat, sent2: nat, failed2: nat)
    requires Report(sent1, failed1) == Report(sent2, failed2)
    ensures sent1 == sent2 && failed1 == failed2
  {
    var mid := ". Не доставлено: ";
    assert mid[0] == '.';
    CountsDetermined("Готово. Отправлено: ", mid, sent1, failed1, sent2, failed2);
  }

  /** Two numbers written out between fixed texts, the middle one starting with a non-digit, can be read back. */
  lemma CountsDetermined(head: string, mid: string, n1: nat, m1: nat, n2: nat, m2: nat)
    requires |mid| > 0 && !IsDigit(mid[0])
    requires head + (DecimalDigits(n1) + (mid + (DecimalDigits(m1) + ".")))
          == head + (DecimalDigits(n2) + (mid + (DecimalDigits(m2) + ".")))
    ensures n1 == n2 && m1 == m2
  {
    var d1, e1 := DecimalDigits(n1), DecimalDigits(m1);
    var d2, e2 := DecimalDigits(n2), DecimalDigits(m2);
    CancelPrefix(head, d1 + (mid + (e1 + ".")), d2 + (mid + (e2 + ".")));
    DigitsBeforeNonDigit(d1, mid + (e1 + "."), d2, mid + (e2 + "."));
    CancelPrefix(mid, e1 + ".", e2 + ".");
    DigitsBeforeNonDigit(e1, ".", e2, ".");
  }

  /**
   * The loop: every id is attempted once, in order; `sent` counts the sends
   * that went through and `failed` the ones that raised.
   */
  method Dispatch(ids: seq<int>, text: string, failing: set<int>) returns (sends: seq<Effect>, sent: nat, failed: nat)
    ensures sends == Attempts(ids, text)
    ensures sent == |Delivered(ids, failing)| && failed == |Undelivered(ids, failing)|
    ensures sent + failed == |ids|
  {
    sends, sent, failed := [], 0, 0;
    for i := 0 to |ids|
      invariant sends == Attempts(ids[..i], text)
      invariant sent == |Delivered(ids[..i], failing)|
      invariant failed == |Undelivered(ids[..i], failing)|
      invariant sent + failed == i
    {
      assert ids[..i + 1][..i] == ids[..i];
      sends := sends + [Send(ids[i], text)];
      if ids[i] in failing {
        failed := failed + 1;
      } else {
        sent := sent + 1;
      }
    }
    assert ids[..|ids|] == ids;
  }

  /** Five recipients, the third of whom cannot be reached: four sent, one failed, all five attempted. */
  lemma ThirdOfFiveFails()
    ensures |Delivered([11, 12, 13, 14, 15], {13})| == 4
    ensures |Undelivered([11, 12, 13, 14, 15], {13})| == 1
  {
    var s1: seq<int> := [11];
    var s2: seq<int> := [11, 12];
    var s3: seq<int> := [11, 12, 13];
    var s4: seq<int> := [11, 12, 13, 14];
    var s5: seq<int> := [11, 12, 13, 14, 15];
    assert s5[..4] == s4 && s4[..3] == s3 && s3[..2] == s2 && s2[..1] == s1 && s1[..0] == [];
    assert Delivered(s1, {13}) == [11] && Undelivered(s1, {13}) == [];
    assert Delivered(s2, {13}) == [11, 12] && Undelivered(s2, {13}) == [];
    assert Delivered(s3, {13}) == [11, 12] && Undelivered(s3, {13}) == [13];
    assert Delivered(s4, {13}) == [11, 12, 14] && Undelivered(s4, {13}) == [13];
    assert Delivered(s5, {13}) == [11, 12, 14, 15] && Undelivered(s5, {13}) == [13];
  }
}
