/** The stamp-count calculators of electroncash/slp_post_office.py:
    `SlpPostOfficePr.calculate_postage_and_build_slp_msg` (the fresh variant,
    for a first send) and `SlpPostOffice.calculate_postage_and_build_slp_msg`
    (the incremental variant, which keeps the amounts of an earlier token
    message). Both raise the stamp count one pass at a time until the
    estimated size and dust cost of the transaction are covered by
    `stamp_count * weight`, then map the output shape to the token amounts.

    The coin chooser is a parameter: a total function from the required token
    amount to the token values of the coins it selects. Building the token
    message returns the amounts themselves. */
module Postage {
  import opened Common

  // Size-estimation constants, in bytes, and the network dust limit.
  const TxnOverhead := 4 + 1 + 1 + 4   // version, input count, output count, lock time
  const OutputUnitSize := 34           // a pay-to-public-key-hash output
  const InputUnitSizeEcdsa := 149      // an ECDSA-signed input
  const DustLimit := 546
  const FeeRate := 1

  // Token message sizes of the fresh variant: one, two or three amounts.
  const FreshMsgMaxSize := 8 + 1 + 73
  const FreshMsgMidSize := FreshMsgMaxSize - 9
  const FreshMsgMinSize := FreshMsgMidSize - 9

  /** Token message size of the incremental variant when it carries only the
      `m` amounts kept from the earlier message. */
  function IncMsgMinSize(m: nat): int
  {
    8 + 1 + 46 + 9 * m
  }

  /** A post office's offer for one token: its stamp rate, in the token's
      smallest unit, and the host's weight, in satoshis covered per stamp. */
  datatype Offer = Offer(rate: int, weight: int)

  /** The working state of one pass of the stamp-count loop. */
  datatype Trial = Trial(coins: seq<nat>, postage: int, change: int,
                         dust: int, msgSize: int, deficit: int)

  /** What the calculators return: the selected coins' token values, the
      amounts of the token message, whether postage is paid, and the postage
      amount. */
  datatype Plan = Plan(coins: seq<nat>, amounts: seq<int>, needsPostage: bool, postage: int)

  // ---------------------------------------------------------------------
  // Rate lookup

  /** The rate of the stamps loop: the loop never breaks, so a later stamp
      for the token overrides an earlier one. */
  function LastRate(stamps: seq<Stamp>, tokenId: string): Option<int>
  {
    if stamps == [] then None
    else if stamps[|stamps| - 1].tokenId == tokenId then Some(stamps[|stamps| - 1].rate)
    else LastRate(stamps[..|stamps| - 1], tokenId)
  }

  /** Stamp `i` is the last one offering `tokenId`. */
  predicate IsLastMatch(stamps: seq<Stamp>, tokenId: string, i: int)
  {
    0 <= i < |stamps| && stamps[i].tokenId == tokenId &&
    forall j :: i < j < |stamps| ==> stamps[j].tokenId != tokenId
  }

  /** The rate found is that of the last stamp for the token, and there is
      none exactly when no stamp is for the token. */
  lemma {:induction false} LastRateIsLastMatch(stamps: seq<Stamp>, tokenId: string)
    ensures LastRate(stamps, tokenId).None? <==>
              forall i :: 0 <= i < |stamps| ==> stamps[i].tokenId != tokenId
    ensures forall i :: IsLastMatch(stamps, tokenId, i) ==>
              LastRate(stamps, tokenId) == Some(stamps[i].rate)
    decreases |stamps|
  {
    if stamps != [] {
      var n := |stamps| - 1;
      LastRateIsLastMatch(stamps[..n], tokenId);
      forall i | IsLastMatch(stamps, tokenId, i)
        ensures LastRate(stamps, tokenId) == Some(stamps[i].rate)
      {
        if i < n {
          assert IsLastMatch(stamps[..n], tokenId, i);
        }
      }
      if stamps[n].tokenId != tokenId {
        assert forall i :: 0 <= i < n ==> stamps[..n][i] == stamps[i];
      }
    }
  }

  /** The lookups that precede the loop: `weight`, then `stamps`, then the
      rate of the token, each raising when absent. */
  function LookupOffer(po: Doc, tokenId: string): Result<Offer>
  {
    if po.weight.None? then Err(MissingKey("weight"))
    else if po.stamps.None? then Err(MissingKey("stamps"))
    else match LastRate(po.stamps.value, tokenId)
      case None => Err(NoOffer(tokenId))
      case Some(rate) => Ok(Offer(rate, po.weight.value))
  }

  // ---------------------------------------------------------------------
  // One pass of the loop

  /** The fee deficit of a pass: estimated size at one satoshi per byte, plus
      the dust of the outputs, less the dust brought in by the inputs, less
      what the stamps cover. */
  function Deficit(inputs: nat, dust: int, msgSize: int, stampCount: nat, weight: int): int
  {
    var size := TxnOverhead + InputUnitSizeEcdsa * inputs + OutputUnitSize * dust + msgSize;
    var satsDiff := dust * DustLimit - inputs * DustLimit;
    size * FeeRate + satsDiff - stampCount * weight
  }

  /** A pass at `stampCount` stamps, given how the variant classifies the
      output shape into a dust count and a message size. */
  function MakeTrial(chooser: int -> seq<nat>, send: int, offer: Offer, stampCount: nat,
                     shape: Shape): Trial
  {
    var coins := chooser(send + offer.rate * stampCount);
    var postage := offer.rate * stampCount;
    var change := Sum(coins) - send - postage;
    var c := Classify(shape, postage, change);
    Trial(coins, postage, change, c.0, c.1,
          Deficit(|coins|, c.0, c.1, stampCount, offer.weight))
  }

  /** Which classification of the output shape a pass uses. */
  datatype Shape = Fresh | Incremental(m: nat) | IncrementalIntended(m: nat)

  function Classify(shape: Shape, postage: int, change: int): (int, int)
  {
    match shape
    case Fresh => FreshClassify(postage, change)
    case Incremental(m) => IncClassify(m, postage, change)
    case IncrementalIntended(m) => IncClassifyIntended(m, postage, change)
  }

  /** Fresh classification: one dust output for the receiver, one more for
      postage and one more for change. */
  function FreshClassify(postage: int, change: int): (c: (int, int))
    ensures c.0 in {1, 2, 3}
    ensures c.0 == 3 <==> postage > 0 && change > 0
    ensures c.0 == 1 <==> postage <= 0 && change <= 0
    ensures c.1 == FreshMsgMinSize + 9 * (c.0 - 1)
  {
    if postage > 0 && change > 0 then (3, FreshMsgMaxSize)
    else if postage > 0 || change > 0 then (2, FreshMsgMidSize)
    else (1, FreshMsgMinSize)
  }

  /** Incremental classification as written: with both postage and change the
      count grows by two, but with exactly one of them it is set to 1. */
  function IncClassify(m: nat, postage: int, change: int): (int, int)
  {
    if postage > 0 && change > 0 then (m + 2, IncMsgMinSize(m) + 18)
    else if postage > 0 || change > 0 then (1, IncMsgMinSize(m) + 9)
    else (m, IncMsgMinSize(m))
  }

  /** A pass of the fresh loop at `stampCount` stamps. */
  function FreshTrial(chooser: int -> seq<nat>, send: int, offer: Offer, stampCount: nat): (t: Trial)
    ensures t.coins == chooser(send + offer.rate * stampCount)
    ensures t.postage == offer.rate * stampCount
    ensures t.change == Sum(t.coins) - send - t.postage
    ensures t.dust in {1, 2, 3}
    ensures t.dust == 3 <==> t.postage > 0 && t.change > 0
    ensures t.dust == 1 <==> t.postage <= 0 && t.change <= 0
    ensures t.msgSize == FreshMsgMinSize + 9 * (t.dust - 1)
    ensures t.deficit == 10 + t.msgSize + 580 * t.dust - 397 * |t.coins| - stampCount * offer.weight
    ensures t.deficit <= 1832 - stampCount * offer.weight
  {
    MakeTrial(chooser, send, offer, stampCount, Fresh)
  }

  /** A pass of the incremental loop at `stampCount` stamps, keeping `m`
      earlier amounts. */
  function IncTrial(chooser: int -> seq<nat>, send: int, offer: Offer, m: nat, stampCount: nat): (t: Trial)
    ensures t.coins == chooser(send + offer.rate * stampCount)
    ensures t.postage == offer.rate * stampCount
    ensures t.change == Sum(t.coins) - send - t.postage
    ensures t.postage > 0 && t.change > 0 ==> t.dust == m + 2
    ensures (t.postage > 0) != (t.change > 0) ==> t.dust == 1
    ensures t.postage <= 0 && t.change <= 0 ==> t.dust == m
    ensures t.msgSize == IncMsgMinSize(m) + (if t.postage > 0 && t.change > 0 then 18
                                             else if t.postage > 0 || t.change > 0 then 9 else 0)
    ensures t.deficit == 10 + t.msgSize + 580 * t.dust - 397 * |t.coins| - stampCount * offer.weight
    ensures t.deficit <= 1243 + 589 * m - stampCount * offer.weight
  {
    MakeTrial(chooser, send, offer, stampCount, Incremental(m))
  }

  // ---------------------------------------------------------------------
  // Termination

  /** Some stamp count ends the fresh loop: the Python loop terminates. */
  ghost predicate FreshConverges(chooser: int -> seq<nat>, send: int, offer: Offer)
  {
    exists n: nat :: FreshTrial(chooser, send, offer, n).deficit <= 0
  }

  /** Some stamp count ends the incremental loop. */
  ghost predicate IncConverges(chooser: int -> seq<nat>, send: int, offer: Offer, m: nat)
  {
    exists n: nat :: IncTrial(chooser, send, offer, m, n).deficit <= 0
  }

  /** With a positive weight the fresh loop stops by 1832 stamps, whatever
      coins are chosen. */
  lemma FreshTerminates(chooser: int -> seq<nat>, send: int, offer: Offer)
    requires offer.weight > 0
    ensures FreshConverges(chooser, send, offer)
  {
    assert FreshTrial(chooser, send, offer, 1832).deficit <= 0;
  }

  lemma {:induction false} MulAtLeast(n: nat, w: int)
    requires w >= 1
    ensures n * w >= n
  {
    if n > 0 {
      MulAtLeast(n - 1, w);
      assert n * w == (n - 1) * w + w;
    }
  }

  /** With a positive weight the incremental loop stops by `1243 + 589 * m`
      stamps, whatever coins are chosen. */
  lemma IncTerminates(chooser: int -> seq<nat>, send: int, offer: Offer, m: nat)
    requires offer.weight > 0
    ensures IncConverges(chooser, send, offer, m)
  {
    var n: nat := 1243 + 589 * m;
    MulAtLeast(n, offer.weight);
    assert IncTrial(chooser, send, offer, m, n).deficit <= 0;
  }

  // ---------------------------------------------------------------------
  // The final case tables

  /** `[x]` when `x` is positive, otherwise nothing. */
  function IfPositive(x: int): seq<int>
  {
    if x > 0 then [x] else []
  }

  /** The amounts a fresh send should carry: the send amount, then the
      postage if any, then the change if any. */
  function FreshAmounts(send: int, postage: int, change: int): seq<int>
  {
    [send] + IfPositive(postage) + IfPositive(change)
  }

  /** The case table that ends the fresh calculator. */
  function FreshTable(send: int, t: Trial): Result<(seq<int>, bool)>
  {
    if t.dust == 1 then Ok(([send], false))
    else if t.dust == 2 && t.postage > 0 then Ok(([send, t.postage], true))
    else if t.dust == 2 && t.change > 0 then Ok(([send, t.change], false))
    else if t.dust == 3 then Ok(([send, t.postage, t.change], true))
    else Err(UnhandledShape)
  }

  /** On every pass the fresh loop can end with, the table never raises: it
      yields the send amount first, then postage and change when positive,
      and asks for postage exactly when the postage amount is positive. */
  lemma FreshTableTotal(chooser: int -> seq<nat>, send: int, offer: Offer, stampCount: nat)
    ensures var t := FreshTrial(chooser, send, offer, stampCount);
            FreshTable(send, t) == Ok((FreshAmounts(send, t.postage, t.change), t.postage > 0))
  {
    var t := FreshTrial(chooser, send, offer, stampCount);
    if t.postage > 0 && t.change > 0 {
      assert FreshAmounts(send, t.postage, t.change) == [send, t.postage, t.change];
    } else if t.postage > 0 {
      assert FreshAmounts(send, t.postage, t.change) == [send, t.postage];
    } else if t.change > 0 {
      assert FreshAmounts(send, t.postage, t.change) == [send, t.change];
    } else {
      assert FreshAmounts(send, t.postage, t.change) == [send];
    }
  }

  /** The earlier message's amounts that the incremental variant keeps: all
      but the first and, when they sum to more than the send amount (the last
      one was change), all but the last too. */
  function PreAmounts(tokenOutput: seq<int>, send: int): (r: seq<int>)
    ensures r <= Tail(tokenOutput)
    ensures |Tail(tokenOutput)| - |r| == if Sum(Tail(tokenOutput)) > send && |tokenOutput| > 1 then 1 else 0
  {
    var pre := Tail(tokenOutput);
    if Sum(pre) > send then DropLast(pre) else pre
  }

  /** The case table that ends the incremental calculator, indexed by how many
      dust outputs the pass added to the kept ones. */
  function IncTable(pre: seq<int>, t: Trial): Result<(seq<int>, bool)>
  {
    var diff := t.dust - |pre|;
    if diff == 0 then Ok((pre, false))
    else if diff == 1 && t.postage > 0 then Ok((pre + [t.postage], true))
    else if diff == 1 && t.change > 0 then Ok((pre + [t.change], false))
    else if diff == 2 then Ok((pre + [t.postage, t.change], true))
    else Err(UnhandledShape)
  }

  /** What the incremental table yields on the passes its loop produces. With
      both postage and change it appends both and asks for postage; with
      neither it keeps the earlier amounts. With exactly one of them the dust
      count is 1, so the outcome depends on how many amounts were kept: with
      none the one positive amount is appended; with one the postage or
      change is dropped and no postage is asked for; with two or more the
      calculator raises. */
  lemma IncTableAsWritten(chooser: int -> seq<nat>, send: int, offer: Offer, pre: seq<int>, stampCount: nat)
    ensures var t := IncTrial(chooser, send, offer, |pre|, stampCount);
            && (t.postage > 0 && t.change > 0 ==>
                  IncTable(pre, t) == Ok((pre + [t.postage, t.change], true)))
            && (t.postage <= 0 && t.change <= 0 ==> IncTable(pre, t) == Ok((pre, false)))
            && ((t.postage > 0) != (t.change > 0) && |pre| == 0 ==>
                  IncTable(pre, t) == Ok((pre + IfPositive(t.postage) + IfPositive(t.change), t.postage > 0)))
            && ((t.postage > 0) != (t.change > 0) && |pre| == 1 ==> IncTable(pre, t) == Ok((pre, false)))
            && ((t.postage > 0) != (t.change > 0) && |pre| >= 2 ==> IncTable(pre, t) == Err(UnhandledShape))
  {
    var t := IncTrial(chooser, send, offer, |pre|, stampCount);
    if (t.postage > 0) != (t.change > 0) && |pre| == 0 {
      assert pre + IfPositive(t.postage) + IfPositive(t.change) ==
             if t.postage > 0 then pre + [t.postage] else pre + [t.change];
    }
  }

  /** The table's result as the calculator's return value. */
  function ToPlan(t: Trial, table: Result<(seq<int>, bool)>): Result<Plan>
  {
    match table
    case Ok((amounts, needsPostage)) => Ok(Plan(t.coins, amounts, needsPostage, t.postage))
    case Err(e) => Err(e)
  }

  // ---------------------------------------------------------------------
  // The calculators

  /** The stamps loop that both calculators run before the stamp-count loop:
      it keeps the rate of every stamp for the token it meets. */
  method FindRate(stamps: seq<Stamp>, tokenId: string) returns (rate: Option<int>)
    ensures rate == LastRate(stamps, tokenId)
  {
    rate := None;
    for i := 0 to |stamps|
      invariant rate == LastRate(stamps[..i], tokenId)
    {
      assert stamps[..i + 1][..i] == stamps[..i];
      if stamps[i].tokenId == tokenId {
        rate := Some(stamps[i].rate);
      }
    }
    assert stamps[..|stamps|] == stamps;
  }

  /** The inner loop of a pass: the total token value of the chosen coins. */
  method TotalTokenValue(coins: seq<nat>) returns (total: int)
    ensures total == Sum(coins)
  {
    total := 0;
    for c := 0 to |coins|
      invariant total == Sum(coins[..c])
    {
      assert coins[..c + 1][..c] == coins[..c];
      total := total + coins[c];
    }
    assert coins[..|coins|] == coins;
  }

  /** A pass with a deficit extends the run of passes with a deficit by one. */
  lemma FreshMinimalStep(chooser: int -> seq<nat>, send: int, offer: Offer, count: nat)
    requires forall j: nat :: j < count ==> FreshTrial(chooser, send, offer, j).deficit > 0
    requires FreshTrial(chooser, send, offer, count).deficit > 0
    ensures forall j: nat :: j < count + 1 ==> FreshTrial(chooser, send, offer, j).deficit > 0
  {
  }

  /** A pass with a deficit extends the run of passes with a deficit by one. */
  lemma IncMinimalStep(chooser: int -> seq<nat>, send: int, offer: Offer, m: nat, count: nat)
    requires forall j: nat :: j < count ==> IncTrial(chooser, send, offer, m, j).deficit > 0
    requires IncTrial(chooser, send, offer, m, count).deficit > 0
    ensures forall j: nat :: j < count + 1 ==> IncTrial(chooser, send, offer, m, j).deficit > 0
  {
  }

  /** One pass of the fresh loop at `count` stamps: choose coins for the send
      amount plus postage, total their token value, classify the outputs and
      estimate the fee deficit. */
  method FreshPass(chooser: int -> seq<nat>, send: int, offer: Offer, count: nat) returns (t: Trial)
    ensures t == FreshTrial(chooser, send, offer, count)
  {
    var coins := chooser(send + offer.rate * count);
    var dust := 1;
    var msgSize := FreshMsgMinSize;
    var postage := offer.rate * count;
    var total := TotalTokenValue(coins);
    var change := total - send - postage;
    if postage > 0 && change > 0 {
      dust := 3;
      msgSize := FreshMsgMaxSize;
    } else if postage > 0 || change > 0 {
      dust := 2;
      msgSize := FreshMsgMidSize;
    }
    var size := TxnOverhead + InputUnitSizeEcdsa * |coins| + OutputUnitSize * dust + msgSize;
    var satsDiff := dust * DustLimit - |coins| * DustLimit;
    var satsDiffWithFee := size * FeeRate + satsDiff - count * offer.weight;
    t := Trial(coins, postage, change, dust, msgSize, satsDiffWithFee);
  }

  /** `SlpPostOfficePr.calculate_postage_and_build_slp_msg`. On success the
      returned plan is that of the first stamp count whose pass has no fee
      deficit; every smaller stamp count left a deficit. */
  method FreshPostage(chooser: int -> seq<nat>, tokenId: string, po: Doc, send: int)
    returns (r: Result<Plan>, ghost stampCount: nat)
    requires LookupOffer(po, tokenId).Ok? ==>
               FreshConverges(chooser, send, LookupOffer(po, tokenId).value)
    ensures LookupOffer(po, tokenId).Err? ==> r == Err(LookupOffer(po, tokenId).error)
    ensures LookupOffer(po, tokenId).Ok? ==>
              var offer := LookupOffer(po, tokenId).value;
              var t := FreshTrial(chooser, send, offer, stampCount);
              && t.deficit <= 0
              && (forall j: nat :: j < stampCount ==> FreshTrial(chooser, send, offer, j).deficit > 0)
              && r == Ok(Plan(t.coins, FreshAmounts(send, t.postage, t.change), t.postage > 0, t.postage))
  {
    stampCount := 0;
    if po.weight.None? {
      return Err(MissingKey("weight")), 0;
    }
    var weight := po.weight.value;
    if po.stamps.None? {
      return Err(MissingKey("stamps")), 0;
    }
    var rate := FindRate(po.stamps.value, tokenId);
    if rate.None? {
      return Err(NoOffer(tokenId)), 0;
    }
    var offer := Offer(rate.value, weight);
    ghost var bound: nat :| FreshTrial(chooser, send, offer, bound).deficit <= 0;

    var satsDiffWithFee := 1;
    var count := -1;
    var pass := Trial([], 0, 0, 1, FreshMsgMinSize, 1);
    while satsDiffWithFee > 0
      invariant -1 <= count <= bound
      invariant count == -1 ==> satsDiffWithFee == 1
      invariant count >= 0 ==>
                  pass == FreshTrial(chooser, send, offer, count) && satsDiffWithFee == pass.deficit
      invariant forall j: nat :: j < count ==> FreshTrial(chooser, send, offer, j).deficit > 0
      decreases bound - count
    {
      if count >= 0 {
        FreshMinimalStep(chooser, send, offer, count);
      }
      count := count + 1;
      pass := FreshPass(chooser, send, offer, count);
      satsDiffWithFee := pass.deficit;
    }
    stampCount := count;
    r := ToPlan(pass, FreshTable(send, pass));
    FreshTableTotal(chooser, send, offer, stampCount);
  }

  /** One pass of the incremental loop at `count` stamps, keeping `minDust`
      earlier amounts. */
  method IncPass(chooser: int -> seq<nat>, send: int, offer: Offer, minDust: nat, count: nat)
    returns (t: Trial)
    ensures t == IncTrial(chooser, send, offer, minDust, count)
  {
    var msgMinSize := IncMsgMinSize(minDust);
    var msgMidSize := msgMinSize + 9;
    var msgMaxSize := msgMidSize + 9;
    var coins := chooser(send + offer.rate * count);
    var dust := minDust;
    var msgSize := msgMinSize;
    var postage := offer.rate * count;
    var total := TotalTokenValue(coins);
    var change := total - send - postage;
    if postage > 0 && change > 0 {
      dust := dust + 2;
      msgSize := msgMaxSize;
    } else if postage > 0 || change > 0 {
      dust := 1;
      msgSize := msgMidSize;
    }
    var size := TxnOverhead + InputUnitSizeEcdsa * |coins| + OutputUnitSize * dust + msgSize;
    var satsDiff := dust * DustLimit - |coins| * DustLimit;
    var satsDiffWithFee := size * FeeRate + satsDiff - count * offer.weight;
    t := Trial(coins, postage, change, dust, msgSize, satsDiffWithFee);
  }

  /** `SlpPostOffice.calculate_postage_and_build_slp_msg`. On success the
      result is the incremental table applied to the pass of the first stamp
      count with no fee deficit; every smaller stamp count left a deficit.
      IncTableAsWritten says what that table yields. */
  method IncrementalPostage(chooser: int -> seq<nat>, tokenId: string, po: Doc, send: int,
                            oldTokenOutput: seq<int>)
    returns (r: Result<Plan>, ghost stampCount: nat)
    requires LookupOffer(po, tokenId).Ok? ==>
               IncConverges(chooser, send, LookupOffer(po, tokenId).value,
                            |PreAmounts(oldTokenOutput, send)|)
    ensures LookupOffer(po, tokenId).Err? ==> r == Err(LookupOffer(po, tokenId).error)
    ensures LookupOffer(po, tokenId).Ok? ==>
              var offer := LookupOffer(po, tokenId).value;
              var pre := PreAmounts(oldTokenOutput, send);
              var t := IncTrial(chooser, send, offer, |pre|, stampCount);
              && t.deficit <= 0
              && (forall j: nat :: j < stampCount ==> IncTrial(chooser, send, offer, |pre|, j).deficit > 0)
              && r == ToPlan(t, IncTable(pre, t))
  {
    stampCount := 0;
    if po.weight.None? {
      return Err(MissingKey("weight")), 0;
    }
    var weight := po.weight.value;
    if po.stamps.None? {
      return Err(MissingKey("stamps")), 0;
    }
    var rate := FindRate(po.stamps.value, tokenId);
    if rate.None? {
      return Err(NoOffer(tokenId)), 0;
    }
    var offer := Offer(rate.value, weight);

    var pre := PreAmounts(oldTokenOutput, send);
    var minDust := |pre|;
    ghost var bound: nat :| IncTrial(chooser, send, offer, minDust, bound).deficit <= 0;

    var satsDiffWithFee := 1;
    var count := -1;
    var pass := Trial([], 0, 0, minDust, IncMsgMinSize(minDust), 1);
    while satsDiffWithFee > 0
      invariant -1 <= count <= bound
      invariant count == -1 ==> satsDiffWithFee == 1
      invariant count >= 0 ==>
                  pass == IncTrial(chooser, send, offer, minDust, count) && satsDiffWithFee == pass.deficit
      invariant forall j: nat :: j < count ==> IncTrial(chooser, send, offer, minDust, j).deficit > 0
      decreases bound - count
    {
      if count >= 0 {
        IncMinimalStep(chooser, send, offer, minDust, count);
      }
      count := count + 1;
      pass := IncPass(chooser, send, offer, minDust, count);
      satsDiffWithFee := pass.deficit;
    }
    stampCount := count;
    r := ToPlan(pass, IncTable(pre, pass));
  }

  // ---------------------------------------------------------------------
  // The incremental classification as evidently intended

  /** The incremental classification with one dust output added when exactly
      one of postage and change is positive. */
  function IncClassifyIntended(m: nat, postage: int, change: int): (int, int)
  {
    if postage > 0 && change > 0 then (m + 2, IncMsgMinSize(m) + 18)
    else if postage > 0 || change > 0 then (m + 1, IncMsgMinSize(m) + 9)
    else (m, IncMsgMinSize(m))
  }

  /** A pass of the incremental loop under the intended classification. */
  function IncTrialIntended(chooser: int -> seq<nat>, send: int, offer: Offer, m: nat, stampCount: nat): Trial
  {
    MakeTrial(chooser, send, offer, stampCount, IncrementalIntended(m))
  }

  /** Under the intended classification the incremental table never raises:
      it keeps the earlier amounts, appends postage and change when positive,
      and asks for postage exactly when the postage amount is positive. */
  lemma IncTableIntended(chooser: int -> seq<nat>, send: int, offer: Offer, pre: seq<int>, stampCount: nat)
    ensures var t := IncTrialIntended(chooser, send, offer, |pre|, stampCount);
            IncTable(pre, t) == Ok((pre + IfPositive(t.postage) + IfPositive(t.change), t.postage > 0))
  {
    var t := IncTrialIntended(chooser, send, offer, |pre|, stampCount);
    assert t.dust == IncClassifyIntended(|pre|, t.postage, t.change).0;
    if t.postage > 0 && t.change > 0 {
      assert pre + IfPositive(t.postage) + IfPositive(t.change) == pre + [t.postage, t.change];
    } else if t.postage > 0 {
      assert pre + IfPositive(t.postage) + IfPositive(t.change) == pre + [t.postage];
    } else if t.change > 0 {
      assert pre + IfPositive(t.postage) + IfPositive(t.change) == pre + [t.change];
    } else {
      assert pre + IfPositive(t.postage) + IfPositive(t.change) == pre;
    }
  }

  /** A concrete input on which the calculator as written raises: two kept
      amounts, one stamp at rate 1, and coins that exactly cover send amount
      and postage, so there is postage but no change. The pass at one stamp
      is the first without a deficit, so it is the one the loop ends with. */
  lemma IncRaisesOnKeptPair()
    ensures var chooser := (x: int) => if x >= 0 then [x as nat] else [];
            var t := IncTrial(chooser, 12, Offer(1, 1000), 2, 1);
            && IncTrial(chooser, 12, Offer(1, 1000), 2, 0).deficit > 0
            && t.deficit <= 0
            && t.postage == 1 && t.change == 0
            && IncTable(PreAmounts([0, 5, 7], 12), t) == Err(UnhandledShape)
  {
    var chooser := (x: int) => if x >= 0 then [x as nat] else [];
    var pre := PreAmounts([0, 5, 7], 12);
    assert [0, 5, 7][1..] == [5, 7];
    assert Sum([5, 7]) == 12 by {
      assert [5, 7][..1] == [5];
      assert [5][..0] == [];
    }
    assert pre == [5, 7];
    var t := IncTrial(chooser, 12, Offer(1, 1000), 2, 1);
    assert t.coins == [13];
    assert Sum([13]) == 13 by { assert [13][..0] == []; }
    var t0 := IncTrial(chooser, 12, Offer(1, 1000), 2, 0);
    assert t0.coins == [12];
    assert Sum([12]) == 12 by { assert [12][..0] == []; }
  }

  /** A concrete input on which the calculator as written drops the postage
      from the message: one kept amount, one stamp at rate 1, and coins that
      exactly cover send amount and postage. The loop ends at one stamp with
      a postage of 1, yet the message keeps only the earlier amount and no
      postage is asked for. */
  lemma IncDropsPostageOnKeptSingle()
    ensures var chooser := (x: int) => if x >= 0 then [x as nat] else [];
            var t := IncTrial(chooser, 12, Offer(1, 1000), 1, 1);
            && IncTrial(chooser, 12, Offer(1, 1000), 1, 0).deficit > 0
            && t.deficit <= 0
            && t.postage == 1 && t.change == 0
            && IncTable(PreAmounts([0, 12], 12), t) == Ok(([12], false))
  {
    var chooser := (x: int) => if x >= 0 then [x as nat] else [];
    assert [0, 12][1..] == [12];
    assert Sum([12]) == 12 by { assert [12][..0] == []; }
    assert PreAmounts([0, 12], 12) == [12];
    var t := IncTrial(chooser, 12, Offer(1, 1000), 1, 1);
    assert t.coins == [13];
    assert Sum([13]) == 13 by { assert [13][..0] == []; }
    var t0 := IncTrial(chooser, 12, Offer(1, 1000), 1, 0);
    assert t0.coins == [12];
  }
}
