/** The two `build_slp_txn` of electroncash/slp_post_office.py: the ordered
    output list of the unsigned transaction. The token message's parsed
    `token_output` list is an input; its entry 0 stands for the token message
    output itself, and each later entry is the amount of the output at that
    index. Outputs are of any type `O`; the result is the list of outputs
    rather than the transaction built from it. */
module Assembly {
  import opened Common
  import opened Postage

  /** The outputs `SlpPostOfficePr.build_slp_txn` builds: the token message
      and the receiver, then the post office output when the message carries
      two amounts, or the post office and change outputs when it carries
      three. */
  function FreshOutputs<O>(slp: O, receiver: O, postOffice: O, change: O, tokenOutput: seq<int>)
    : (outs: seq<O>)
    ensures |outs| >= 2 && outs[0] == slp && outs[1] == receiver
    ensures 2 <= |tokenOutput| <= 4 ==> |outs| == |tokenOutput|
    ensures !(3 <= |tokenOutput| <= 4) ==> |outs| == 2
    ensures |outs| > 2 ==> outs[2] == postOffice
    ensures |outs| > 3 ==> outs[3] == change
  {
    var outputs := [slp, receiver];
    if |tokenOutput| - 1 == 2 then outputs + [postOffice]
    else if |tokenOutput| - 1 == 3 then outputs + [postOffice, change]
    else outputs
  }

  /** The earlier outputs `SlpPostOffice.build_slp_txn` carries over: all but
      the first and, when the earlier message's amounts (entry 0 included) sum
      to more than the send amount, all but the last too. */
  function KeptOutputs<O>(prePostageOutputs: seq<O>, send: int, oldTokenOutput: seq<int>): (kept: seq<O>)
    ensures kept <= Tail(prePostageOutputs)
    ensures |Tail(prePostageOutputs)| - |kept| ==
              if Sum(oldTokenOutput) > send && |prePostageOutputs| > 1 then 1 else 0
  {
    var pre := Tail(prePostageOutputs);
    if Sum(oldTokenOutput) > send then DropLast(pre) else pre
  }

  /** The outputs `SlpPostOffice.build_slp_txn` builds: the token message, the
      carried-over outputs, then the post office output or the post office
      and change outputs, by how many amounts the new message has beyond the
      carried-over outputs. */
  function IncOutputs<O>(slp: O, prePostageOutputs: seq<O>, postOffice: O, change: O, send: int,
                         oldTokenOutput: seq<int>, tokenOutput: seq<int>): (outs: seq<O>)
    ensures var kept := KeptOutputs(prePostageOutputs, send, oldTokenOutput);
            && |outs| == 1 + |kept| + (if |tokenOutput| - |kept| in {2, 3} then |tokenOutput| - |kept| - 1 else 0)
            && outs[..1 + |kept|] == [slp] + kept
            && (|outs| > 1 + |kept| ==> outs[1 + |kept|] == postOffice)
            && (|outs| > 2 + |kept| ==> outs[2 + |kept|] == change)
  {
    var kept := KeptOutputs(prePostageOutputs, send, oldTokenOutput);
    var outputs := [slp] + kept;
    if |tokenOutput| - |kept| == 2 then outputs + [postOffice]
    else if |tokenOutput| - |kept| == 3 then outputs + [postOffice, change]
    else outputs
  }

  /** A fresh plan's message gives one output per `token_output` entry: the
      message, the receiver for the send amount, and the post office output
      for the second amount, whether that amount is postage or change. */
  lemma FreshOutputsMatchPlan<O>(slp: O, receiver: O, postOffice: O, change: O,
                                 send: int, postage: int, changeAmount: int, entry0: int)
    ensures var amounts := FreshAmounts(send, postage, changeAmount);
            var outs := FreshOutputs(slp, receiver, postOffice, change, [entry0] + amounts);
            && |outs| == 1 + |amounts|
            && (postage > 0 || changeAmount > 0 ==> outs[2] == postOffice)
            && (postage > 0 && changeAmount > 0 ==> outs[3] == change)
  {
    var amounts := FreshAmounts(send, postage, changeAmount);
    assert 1 <= |amounts| <= 3;
  }

  /** An incremental plan's message gives one output per `token_output`
      entry when the earlier outputs line up with the earlier message's
      amounts and that message's entry 0 is zero: the carried-over outputs
      are exactly those whose amounts the calculator kept, so the earlier
      change output is not carried over next to the new one, and the post
      office output (then the change output) follows them. */
  lemma IncOutputsMatchPlan<O>(slp: O, prePostageOutputs: seq<O>, postOffice: O, change: O, send: int,
                               oldTokenOutput: seq<int>, t: Trial, amounts: seq<int>, needsPostage: bool,
                               entry0: int)
    requires |prePostageOutputs| == |oldTokenOutput|
    requires |oldTokenOutput| > 0 ==> oldTokenOutput[0] == 0
    requires IncTable(PreAmounts(oldTokenOutput, send), t) == Ok((amounts, needsPostage))
    ensures var n := |PreAmounts(oldTokenOutput, send)|;
            var outs := IncOutputs(slp, prePostageOutputs, postOffice, change, send,
                                   oldTokenOutput, [entry0] + amounts);
            && |outs| == 1 + |amounts|
            && outs[1..1 + n] == Tail(prePostageOutputs)[..n]
            && (Sum(Tail(oldTokenOutput)) > send && |oldTokenOutput| > 1 ==> n == |prePostageOutputs| - 2)
            && (needsPostage ==> outs[1 + n] == postOffice)
            && (|amounts| == n + 2 ==> outs[2 + n] == change)
  {
    var pre := PreAmounts(oldTokenOutput, send);
    var kept := KeptOutputs(prePostageOutputs, send, oldTokenOutput);
    if |oldTokenOutput| > 0 {
      SumHead(oldTokenOutput);
    }
    assert |kept| == |pre|;
    assert |pre| <= |amounts| <= |pre| + 2;
    assert needsPostage ==> |amounts| > |pre|;
  }
}
