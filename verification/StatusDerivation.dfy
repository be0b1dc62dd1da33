/** Deriving an order's status from the answers of the chain, the clock and the transaction cache. */
module StatusDerivation {
  import opened Wrappers
  import opened OrderTypes
  import opened FillSearch
  import opened Sequences

  /** Everything outside the process that one derivation consults. */
  datatype Answers = Answers(
    now: U64,
    nonce: Result<bool>,
    later: U64,
    balances: seq<Result<U256>>,
    allowances: seq<Result<U256>>,
    balanceSymbols: seq<string>,
    allowanceSymbols: seq<string>,
    search: SearchAnswers)

  // ----- balances and allowances

  predicate Sufficient(permitted: seq<Permitted>, answers: seq<Result<U256>>, i: nat)
    requires i < |permitted|
  {
    Answer(answers, i).Ok? && Answer(answers, i).value >= permitted[i].amount
  }

  function CheckAt(permitted: seq<Permitted>, answers: seq<Result<U256>>, symbols: seq<string>, i: nat): TokenCheck
    requires i < |permitted| && Answer(answers, i).Ok?
  {
    TokenCheck(Sufficient(permitted, answers, i), permitted[i].token, Symbol(symbols, i),
               Answer(answers, i).value, permitted[i].amount)
  }

  /** The checks of the successful queries among the first `n`. */
  function ChecksUpTo(permitted: seq<Permitted>, answers: seq<Result<U256>>, symbols: seq<string>,
                      n: nat): seq<TokenCheck>
    requires n <= |permitted|
    decreases n
  {
    if n == 0 then []
    else
      ChecksUpTo(permitted, answers, symbols, n - 1) +
      (if Answer(answers, n - 1).Ok? then [CheckAt(permitted, answers, symbols, n - 1)] else [])
  }

  /** The verdict is that of the last query, among the first `n`, that did not come out sufficient. */
  function VerdictUpTo(permitted: seq<Permitted>, answers: seq<Result<U256>>, n: nat): MaybeBool
    requires n <= |permitted|
    decreases n
  {
    if n == 0 then True
    else if Answer(answers, n - 1).Err? then Unknown
    else if Sufficient(permitted, answers, n - 1) then VerdictUpTo(permitted, answers, n - 1)
    else False
  }

  function TokenReport(permitted: seq<Permitted>, answers: seq<Result<U256>>, symbols: seq<string>,
                       at: U64): TokenChecks {
    var checks := ChecksUpTo(permitted, answers, symbols, |permitted|);
    TokenChecks(if checks == [] then Unknown else VerdictUpTo(permitted, answers, |permitted|), at, checks)
  }

  /** The loop behind both the balance and the allowance check. */
  method CheckTokens(permitted: seq<Permitted>, answers: seq<Result<U256>>, symbols: seq<string>, at: U64)
    returns (report: TokenChecks)
    ensures report == TokenReport(permitted, answers, symbols, at)
  {
    var checks := [];
    var allSufficient := True;
    for i := 0 to |permitted|
      invariant checks == ChecksUpTo(permitted, answers, symbols, i)
      invariant allSufficient == VerdictUpTo(permitted, answers, i)
    {
      match Answer(answers, i) {
        case Ok(amount) =>
          var sufficient := amount >= permitted[i].amount;
          if !sufficient {
            allSufficient := False;
          }
          checks := checks +
            [TokenCheck(sufficient, permitted[i].token, Symbol(symbols, i), amount, permitted[i].amount)];
        case Err =>
          allSufficient := Unknown;
      }
    }
    if checks == [] {
      allSufficient := Unknown;
    }
    return TokenChecks(allSufficient, at, checks);
  }

  /** The answers to the first `n` queries. */
  function Answered(answers: seq<Result<U256>>, n: nat): (answered: seq<Result<U256>>)
    ensures |answered| == n
  {
    seq(n, i requires 0 <= i < n => Answer(answers, i))
  }

  function Successes(answers: seq<Result<U256>>, n: nat): nat {
    Count(Answered(answers, n), (answer: Result<U256>) => answer.Ok?, n)
  }

  lemma {:induction false} ChecksNumber(permitted: seq<Permitted>, answers: seq<Result<U256>>, symbols: seq<string>,
                                        n: nat)
    requires n <= |permitted|
    ensures |ChecksUpTo(permitted, answers, symbols, n)| == Successes(answers, n)
    decreases n
  {
    if n == 0 {
    } else {
      var k := n - 1;
      ChecksNumber(permitted, answers, symbols, k);
      assert Answered(answers, n) == Answered(answers, k) + [Answer(answers, k)];
      CountSnoc(Answered(answers, k), Answer(answers, k), (answer: Result<U256>) => answer.Ok?);
    }
  }

  lemma SomeSuccess(answers: seq<Result<U256>>, n: nat)
    ensures Successes(answers, n) == 0 <==> forall i :: 0 <= i < n ==> Answer(answers, i).Err?
  {
    CountIsPositive(Answered(answers, n), (answer: Result<U256>) => answer.Ok?, n);
    assert forall i :: 0 <= i < n ==> Answered(answers, n)[i] == Answer(answers, i);
  }

  /** A successful query is listed after the checks of the queries before it. */
  lemma {:induction false} CheckListed(permitted: seq<Permitted>, answers: seq<Result<U256>>, symbols: seq<string>,
                                       i: nat, n: nat)
    requires i < n <= |permitted| && Answer(answers, i).Ok?
    ensures ChecksUpTo(permitted, answers, symbols, i) + [CheckAt(permitted, answers, symbols, i)]
              <= ChecksUpTo(permitted, answers, symbols, n)
    decreases n
  {
    if i == n - 1 {
    } else {
      CheckListed(permitted, answers, symbols, i, n - 1);
    }
  }

  /** The checks list every successful query, in order, and nothing else. */
  lemma ChecksInOrder(permitted: seq<Permitted>, answers: seq<Result<U256>>, symbols: seq<string>, n: nat)
    requires n <= |permitted|
    ensures ChecksUpTo(permitted, answers, symbols, n) == [] <==> forall i :: 0 <= i < n ==> Answer(answers, i).Err?
    ensures forall i :: 0 <= i < n && Answer(answers, i).Ok? ==>
      ChecksUpTo(permitted, answers, symbols, i) + [CheckAt(permitted, answers, symbols, i)]
        <= ChecksUpTo(permitted, answers, symbols, n)
    ensures |ChecksUpTo(permitted, answers, symbols, n)| == Successes(answers, n)
  {
    ChecksNumber(permitted, answers, symbols, n);
    SomeSuccess(answers, n);
    forall i | 0 <= i < n && Answer(answers, i).Ok?
      ensures ChecksUpTo(permitted, answers, symbols, i) + [CheckAt(permitted, answers, symbols, i)]
                <= ChecksUpTo(permitted, answers, symbols, n)
    {
      CheckListed(permitted, answers, symbols, i, n);
    }
  }

  /** The last query, among the first `n`, that did not come out sufficient. */
  function LastBad(permitted: seq<Permitted>, answers: seq<Result<U256>>, n: nat): (last: Option<nat>)
    requires n <= |permitted|
    ensures last.None? <==> forall i :: 0 <= i < n ==> Sufficient(permitted, answers, i)
    ensures last.Some? ==>
      last.value < n && !Sufficient(permitted, answers, last.value) &&
      forall j :: last.value < j < n ==> Sufficient(permitted, answers, j)
  {
    var sufficient := seq(|permitted|, i requires 0 <= i < |permitted| => Sufficient(permitted, answers, i));
    assert forall i :: 0 <= i < |permitted| ==> sufficient[i] == Sufficient(permitted, answers, i);
    LastUpTo(sufficient, b => !b, n)
  }

  lemma {:induction false} LastBadDecides(permitted: seq<Permitted>, answers: seq<Result<U256>>, n: nat)
    requires n <= |permitted|
    ensures VerdictUpTo(permitted, answers, n) ==
      match LastBad(permitted, answers, n)
      case None => True
      case Some(i) => if Answer(answers, i).Err? then Unknown else False
    decreases n
  {
    if n == 0 {
    } else {
      LastBadDecides(permitted, answers, n - 1);
    }
  }

  /** What the three verdicts mean in terms of the query outcomes. */
  lemma VerdictMeaning(permitted: seq<Permitted>, answers: seq<Result<U256>>, symbols: seq<string>, at: U64)
    ensures var verdict := TokenReport(permitted, answers, symbols, at).allSufficient;
      && (verdict == True <==>
         permitted != [] && forall i :: 0 <= i < |permitted| ==> Sufficient(permitted, answers, i))
      && (verdict == False <==>
            exists i :: 0 <= i < |permitted| && Answer(answers, i).Ok? && !Sufficient(permitted, answers, i)
              && forall j :: i < j < |permitted| ==> Sufficient(permitted, answers, j))
  {
    var n := |permitted|;
    ChecksInOrder(permitted, answers, symbols, n);
    LastBadDecides(permitted, answers, n);
    if permitted != [] && forall i :: 0 <= i < n ==> Sufficient(permitted, answers, i) {
      assert Sufficient(permitted, answers, 0);
    }
  }

  // ----- the report, down to the fields of its checks

  predicate Got(amounts: seq<Result<U256>>, i: nat) {
    i < |amounts| && amounts[i].Ok?
  }

  predicate Enough(permitted: seq<Permitted>, amounts: seq<Result<U256>>, i: nat) {
    i < |permitted| && Got(amounts, i) && amounts[i].value >= permitted[i].amount
  }

  predicate Compares(check: TokenCheck, permitted: Permitted, amount: U256, symbols: seq<string>, i: nat) {
    && check.token == permitted.token
    && check.required == permitted.amount
    && check.available == amount
    && (check.sufficient <==> amount >= permitted.amount)
    && check.symbol == if i < |symbols| then symbols[i] else "unknown"
  }

  /** Check `k` compares the answer to query `asked[k]`; the queries listed are those that got one, in order. */
  ghost predicate ListsSuccesses(checks: seq<TokenCheck>, permitted: seq<Permitted>, amounts: seq<Result<U256>>,
                                 symbols: seq<string>, n: nat, asked: seq<nat>)
    requires n <= |permitted|
  {
    && Picks(asked, n, (i: nat) => Got(amounts, i))
    && |checks| == |asked|
    && forall k :: 0 <= k < |asked| ==> ComesFrom(checks[k], permitted, amounts, symbols, asked[k])
  }

  ghost predicate ComesFrom(check: TokenCheck, permitted: seq<Permitted>, amounts: seq<Result<U256>>,
                            symbols: seq<string>, i: nat) {
    && i < |permitted| && Got(amounts, i)
    && Compares(check, permitted[i], amounts[i].value, symbols, i)
  }

  /**
   The whole report: one check per answered query; True iff there are tokens and every answer is
   enough, False iff an answer is not enough and all after it are, and otherwise Unknown.
   */
  ghost predicate Checked(report: TokenChecks, permitted: seq<Permitted>, amounts: seq<Result<U256>>,
                          symbols: seq<string>, at: U64) {
    && report.checkedAt == at
    && (report.allSufficient == True <==>
          permitted != [] && forall i :: 0 <= i < |permitted| ==> Enough(permitted, amounts, i))
    && (report.allSufficient == False <==>
          exists i :: 0 <= i < |permitted| && Got(amounts, i) && !Enough(permitted, amounts, i)
            && forall j :: i < j < |permitted| ==> Enough(permitted, amounts, j))
    && exists asked :: ListsSuccesses(report.checks, permitted, amounts, symbols, |permitted|, asked)
  }

  lemma {:induction false} ChecksAreListed(permitted: seq<Permitted>, amounts: seq<Result<U256>>, symbols: seq<string>,
                                           n: nat) returns (asked: seq<nat>)
    requires n <= |permitted|
    ensures ListsSuccesses(ChecksUpTo(permitted, amounts, symbols, n), permitted, amounts, symbols, n, asked)
    decreases n
  {
    if n == 0 {
      asked := [];
    } else {
      var k := n - 1;
      var before := ChecksAreListed(permitted, amounts, symbols, k);
      if Got(amounts, k) {
        ListsNext(ChecksUpTo(permitted, amounts, symbols, k), permitted, amounts, symbols, k, before,
                  CheckAt(permitted, amounts, symbols, k));
        asked := before + [k];
      } else {
        PicksNext(before, k, (i: nat) => Got(amounts, i));
        ConcatEmpty(ChecksUpTo(permitted, amounts, symbols, k));
        asked := before;
      }
    }
  }

  lemma ListsNext(checks: seq<TokenCheck>, permitted: seq<Permitted>, amounts: seq<Result<U256>>, symbols: seq<string>,
                  k: nat, asked: seq<nat>, check: TokenCheck)
    requires k < |permitted| && ListsSuccesses(checks, permitted, amounts, symbols, k, asked)
    requires Got(amounts, k) && Compares(check, permitted[k], amounts[k].value, symbols, k)
    ensures ListsSuccesses(checks + [check], permitted, amounts, symbols, k + 1, asked + [k])
  {
    PicksNext(asked, k, (i: nat) => Got(amounts, i));
  }

  lemma ReportIsChecked(permitted: seq<Permitted>, amounts: seq<Result<U256>>, symbols: seq<string>, at: U64)
    ensures Checked(TokenReport(permitted, amounts, symbols, at), permitted, amounts, symbols, at)
  {
    var asked := ChecksAreListed(permitted, amounts, symbols, |permitted|);
    VerdictMeaning(permitted, amounts, symbols, at);
    assert forall i :: 0 <= i < |permitted| ==> (Sufficient(permitted, amounts, i) <==> Enough(permitted, amounts, i));
    assert forall i :: 0 <= i < |permitted| ==> (Answer(amounts, i).Ok? <==> Got(amounts, i));
  }

  // ----- the status

  function CheckDeadline(order: Order, now: U64): DeadlineCheck {
    DeadlineCheck(if now < order.deadline then order.deadline - now else 0, order.deadline, now)
  }

  function FromBool(b: bool): MaybeBool {
    if b then True else False
  }

  /** What the checks of one derivation find out. */
  datatype Findings = Findings(
    now: U64,
    nonce: Result<bool>,
    later: U64,
    fill: Option<FillInfo>,
    balances: TokenChecks,
    allowances: TokenChecks)

  function FindingsOf(order: Order, answers: Answers, ids: ChainIds): Findings {
    var found := FillOf(order, answers.search, ids);
    Findings(
      answers.now, answers.nonce, answers.later,
      if found.Ok? then found.value else None,
      TokenReport(order.permitted, answers.balances, answers.balanceSymbols, answers.now),
      TokenReport(order.permitted, answers.allowances, answers.allowanceSymbols, answers.now))
  }

  function StatusOf(order: Order, isInCache: bool, findings: Findings): (status: OrderStatus)
    ensures status.hash == order.hash && status.owner == order.owner
    ensures status.Filled? <==> findings.nonce == Ok(true)
    ensures status.Expired? <==> findings.nonce == Ok(false) && order.deadline < findings.now
  {
    var deadlineCheck := CheckDeadline(order, findings.now);
    match findings.nonce
    case Err =>
      var none := TokenChecks(Unknown, findings.later, []);
      Pending(order.hash, order.owner, Diagnostics(FromBool(isInCache), deadlineCheck, none, none))
    case Ok(consumed) =>
      if consumed then Filled(order.hash, order.owner, findings.fill)
      else
        var diagnostics := Diagnostics(FromBool(isInCache), deadlineCheck, findings.balances, findings.allowances);
        if deadlineCheck.deadline < findings.now
        then Expired(order.hash, order.owner, diagnostics)
        else Pending(order.hash, order.owner, diagnostics)
  }

  /** The diagnostics of a status that is not Filled: balances and allowances only if the nonce query was answered. */
  ghost predicate Diagnoses(d: Diagnostics, order: Order, isInCache: bool, answers: Answers) {
    && (d.isInCache == True <==> isInCache)
    && (d.isInCache == False <==> !isInCache)
    && d.deadlineCheck.deadline == order.deadline
    && d.deadlineCheck.checkedAt == answers.now
    && d.deadlineCheck.expiresIn == (if answers.now < order.deadline then order.deadline - answers.now else 0)
    && (match answers.nonce
        case Ok(_) =>
          && Checked(d.balances, order.permitted, answers.balances, answers.balanceSymbols, answers.now)
          && Checked(d.allowances, order.permitted, answers.allowances, answers.allowanceSymbols, answers.now)
        case Err =>
          && d.balances == TokenChecks(Unknown, answers.later, [])
          && d.allowances == TokenChecks(Unknown, answers.later, []))
  }

  /** The fill reported is the one the search locates; none is reported iff the search locates none or fails. */
  ghost predicate ReportsLocated(reported: Option<FillInfo>, order: Order, search: SearchAnswers, ids: ChainIds) {
    forall info :: reported == Some(info) <==>
      exists i: nat, chain, k: nat :: Reports(info, order, search, ids, i, chain, k)
  }

  /** The status that the answers call for, field by field. */
  ghost predicate CalledFor(status: OrderStatus, order: Order, isInCache: bool, answers: Answers, ids: ChainIds) {
    && status.hash == order.hash && status.owner == order.owner
    && match status
       case Filled(_, _, fillInfo) =>
         answers.nonce == Ok(true) && ReportsLocated(fillInfo, order, answers.search, ids)
       case Expired(_, _, diagnostics) =>
         && answers.nonce == Ok(false) && order.deadline < answers.now
         && Diagnoses(diagnostics, order, isInCache, answers)
       case Pending(_, _, diagnostics) =>
         && (answers.nonce == Err || (answers.nonce == Ok(false) && answers.now <= order.deadline))
         && Diagnoses(diagnostics, order, isInCache, answers)
  }

  lemma DerivedIsCalledFor(order: Order, isInCache: bool, answers: Answers, ids: ChainIds)
    ensures CalledFor(StatusOf(order, isInCache, FindingsOf(order, answers, ids)), order, isInCache, answers, ids)
  {
    ReportIsChecked(order.permitted, answers.balances, answers.balanceSymbols, answers.now);
    ReportIsChecked(order.permitted, answers.allowances, answers.allowanceSymbols, answers.now);
    LocatedIsReported(order, answers, ids);
  }

  lemma LocatedIsReported(order: Order, answers: Answers, ids: ChainIds)
    ensures ReportsLocated(FindingsOf(order, answers, ids).fill, order, answers.search, ids)
  {
    forall info
      ensures FindingsOf(order, answers, ids).fill == Some(info) <==>
              exists i: nat, chain, k: nat :: Reports(info, order, answers.search, ids, i, chain, k)
    {
      FindFillCorrect(order, answers.search, ids, info);
    }
  }

  /** What Pending promises, given whether the nonce really is consumed. */
  predicate KeepsPendingPromise(order: Order, findings: Findings, consumed: bool) {
    !consumed && findings.now <= order.deadline
  }

  /** An answer tells the truth; a failed query leaves both possible. */
  predicate Possible(findings: Findings, consumed: bool) {
    findings.nonce.Ok? ==> findings.nonce.value == consumed
  }

  /**
   Pending is documented as "nonce not consumed and deadline not passed". Whatever the nonce may
   really be, a Pending status keeps that promise iff the nonce query was answered. When it was not,
   the promise depends on the nonce, and past the deadline it is broken for certain.
   */
  lemma PendingMeansIff(order: Order, isInCache: bool, findings: Findings)
    requires StatusOf(order, isInCache, findings).Pending?
    ensures (forall consumed :: Possible(findings, consumed) ==> KeepsPendingPromise(order, findings, consumed)) <==>
            findings.nonce.Ok?
    ensures (exists consumed :: Possible(findings, consumed) && KeepsPendingPromise(order, findings, consumed)) <==>
            findings.now <= order.deadline
  {
    assert findings.nonce.Err? ==> Possible(findings, true) && !KeepsPendingPromise(order, findings, true);
    assert Possible(findings, false);
  }

  /** Past the deadline, with the query failing: still Pending, although the promise cannot hold. */
  lemma PendingPastDeadline(order: Order, isInCache: bool, findings: Findings, consumed: bool)
    requires findings.nonce == Err && order.deadline < findings.now
    ensures !KeepsPendingPromise(order, findings, consumed)
    ensures var status := StatusOf(order, isInCache, findings);
      status.Pending? && status.diagnostics.deadlineCheck.expiresIn == 0
        && status.diagnostics.balances.allSufficient == Unknown
        && status.diagnostics.allowances.allSufficient == Unknown
  {
  }

  method StatusForOrder(order: Order, isInCache: bool, answers: Answers, ids: ChainIds) returns (status: OrderStatus)
    ensures status == StatusOf(order, isInCache, FindingsOf(order, answers, ids))
    ensures CalledFor(status, order, isInCache, answers, ids)
  {
    DerivedIsCalledFor(order, isInCache, answers, ids);
    var deadlineCheck := CheckDeadline(order, answers.now);
    if answers.nonce.Err? {
      var none := TokenChecks(Unknown, answers.later, []);
      return Pending(order.hash, order.owner, Diagnostics(FromBool(isInCache), deadlineCheck, none, none));
    }
    if answers.nonce.value {
      var found := FindFill(order, answers.search, ids);
      return Filled(order.hash, order.owner, if found.Ok? then found.value else None);
    }
    var balances := CheckTokens(order.permitted, answers.balances, answers.balanceSymbols, answers.now);
    var allowances := CheckTokens(order.permitted, answers.allowances, answers.allowanceSymbols, answers.now);
    var diagnostics := Diagnostics(FromBool(isInCache), deadlineCheck, balances, allowances);
    if deadlineCheck.deadline < answers.now {
      return Expired(order.hash, order.owner, diagnostics);
    }
    return Pending(order.hash, order.owner, diagnostics);
  }
}
