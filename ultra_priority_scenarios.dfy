/** The account pools of the ultra-priority tests, with the outcomes those tests expect. */
module UltraPriorityScenarios {
  import opened Wrappers
  import opened UltraPriority

  /** The emails of `tokens`, in order. */
  function Emails(tokens: seq<ProxyToken>): (r: seq<string>)
    ensures |r| == |tokens|
    ensures forall i :: 0 <= i < |tokens| ==> r[i] == tokens[i].email
  {
    if tokens == [] then [] else [tokens[0].email] + Emails(tokens[1..])
  }

  /**
   * An Ultra account with low quota against a Pro account with high quota: only the Ultra
   * account serves "claude-opus-4-6", and for "claude-sonnet-4-5", which both serve, the
   * Ultra account still ranks first.
   */
  method UltraPriorityForHighEndModels(now: int)
    returns (filtered: seq<string>, sonnetOrder: Ordering)
    ensures filtered == ["ultra@test.com"]
    ensures sonnetOrder == Less
  {
    var ultraLowQuota := CreateTestToken("ultra@test.com", Some("ULTRA"), 1.0, None, Some(20),
                                         ["claude-opus-4-6", "claude-sonnet-4-5"], now);
    var proHighQuota := CreateTestToken("pro@test.com", Some("PRO"), 1.0, None, Some(80),
                                        ["claude-sonnet-4-5"], now);
    assert "claude-opus-4-6" in ultraLowQuota.modelQuotas;
    assert "claude-opus-4-6" !in proHighQuota.modelQuotas;
    filtered := Emails(FilterTokensByCapability([ultraLowQuota, proHighQuota], "claude-opus-4-6"));
    TierPriorityExamples();
    sonnetOrder := CompareTokensForModel(ultraLowQuota, proHighQuota, "claude-sonnet-4-5");
  }

  /**
   * Among an Ultra account and two Pro accounts, only the two that list "claude-opus-4-6"
   * survive the filter, and sorting them puts the Ultra account first.
   */
  method CapabilityFiltering(now: int) returns (filteredCount: nat, sorted: seq<string>)
    ensures filteredCount == 2
    ensures sorted == ["ultra@test.com", "future_pro@test.com"]
  {
    var ultra, pro, futurePro := CapabilityPool(now);
    DropMiddle(ultra, pro, futurePro, "claude-opus-4-6");
    var filteredOpus := FilterTokensByCapability([ultra, pro, futurePro], "claude-opus-4-6");
    filteredCount := |filteredOpus|;
    UltraBeforePro(ultra, futurePro, "claude-opus-4-6");
    sorted := SortScrambledPool(filteredOpus, filteredOpus, "claude-opus-4-6");
    assert [ultra, futurePro][1..] == [futurePro];
  }

  /** The three accounts of the capability-filtering test; the plain Pro one lacks the model. */
  method CapabilityPool(now: int) returns (ultra: ProxyToken, pro: ProxyToken, futurePro: ProxyToken)
    ensures ultra.email == "ultra@test.com" && ultra.subscriptionTier == Some("ULTRA")
    ensures futurePro.email == "future_pro@test.com" && futurePro.subscriptionTier == Some("PRO")
    ensures "claude-opus-4-6" in ultra.modelQuotas && "claude-opus-4-6" in futurePro.modelQuotas
    ensures "claude-opus-4-6" !in pro.modelQuotas
  {
    ultra := CreateTestToken("ultra@test.com", Some("ULTRA"), 1.0, None, Some(100),
                             ["claude-opus-4-6"], now);
    pro := CreateTestToken("pro@test.com", Some("PRO"), 1.0, None, Some(100),
                           ["claude-sonnet-3-5"], now);
    futurePro := CreateTestToken("future_pro@test.com", Some("PRO"), 1.0, None, Some(50),
                                 ["claude-opus-4-6"], now);
  }

  /** Filtering three accounts of which only the middle one lacks the model drops just that one. */
  lemma DropMiddle(a: ProxyToken, b: ProxyToken, c: ProxyToken, m: string)
    requires m in a.modelQuotas && m !in b.modelQuotas && m in c.modelQuotas
    ensures FilterTokensByCapability([a, b, c], m) == [a, c]
  {
    assert [c][1..] == [];
    assert FilterTokensByCapability([c], m) == [c];
    assert [b, c][1..] == [c];
    assert FilterTokensByCapability([b, c], m) == [c];
    assert [a, b, c][1..] == [b, c];
  }

  /** An Ultra account and a Pro account, in that order, are sorted with distinct ranks. */
  lemma UltraBeforePro(ultra: ProxyToken, pro: ProxyToken, m: string)
    requires ultra.subscriptionTier == Some("ULTRA") && pro.subscriptionTier == Some("PRO")
    ensures SortedFor([ultra, pro], m) && DistinctRanks([ultra, pro], m)
  {
    TierPriorityExamples();
    StrictChainSorted([ultra, pro], m);
  }

  /** Two Ultra accounts: the one with more quota ranks first. */
  method UltraAccountsSortedByQuota(now: int) returns (order: Ordering)
    ensures order == Less
  {
    var ultraHigh := CreateTestToken("ultra_high@test.com", Some("ULTRA"), 1.0, None, Some(80),
                                     ["claude-opus-4-6"], now);
    var ultraLow := CreateTestToken("ultra_low@test.com", Some("ULTRA"), 1.0, None, Some(20),
                                    ["claude-opus-4-6"], now);
    order := CompareTokensForModel(ultraHigh, ultraLow, "claude-opus-4-6");
  }

  /**
   * The mixed pool, given in a scrambled order, sorts to Ultra by quota, then Pro by
   * quota, then Free, for a high-end model and an ordinary one alike.
   */
  method FullSortingMixedAccounts(now: int) returns (emailsOpus: seq<string>, emailsSonnet: seq<string>)
    ensures emailsOpus == ["ultra_high@test.com", "ultra_low@test.com", "pro_high@test.com",
                           "pro_low@test.com", "free@test.com"]
    ensures emailsSonnet == emailsOpus
  {
    var ultraHigh, ultraLow, proHigh, proLow, free := MixedPool(now);
    var expected := [ultraHigh, ultraLow, proHigh, proLow, free];
    var scrambled := [proHigh, free, ultraLow, proLow, ultraHigh];
    MixedPoolOrder(expected, "claude-opus-4-6");
    MixedPoolOrder(expected, "claude-sonnet-4-5");
    Scrambled(ultraHigh, ultraLow, proHigh, proLow, free);
    emailsOpus := SortScrambledPool(expected, scrambled, "claude-opus-4-6");
    emailsSonnet := SortScrambledPool(expected, scrambled, "claude-sonnet-4-5");
    MixedPoolEmails(expected);
  }

  /** The five accounts of the mixed-pool test, each serving both test models. */
  method MixedPool(now: int) returns (ultraHigh: ProxyToken, ultraLow: ProxyToken, proHigh: ProxyToken,
                                      proLow: ProxyToken, free: ProxyToken)
    ensures ultraHigh.email == "ultra_high@test.com" && ultraHigh.subscriptionTier == Some("ULTRA")
    ensures ultraHigh.remainingQuota == Some(80)
    ensures ultraLow.email == "ultra_low@test.com" && ultraLow.subscriptionTier == Some("ULTRA")
    ensures ultraLow.remainingQuota == Some(20)
    ensures proHigh.email == "pro_high@test.com" && proHigh.subscriptionTier == Some("PRO")
    ensures proHigh.remainingQuota == Some(90)
    ensures proLow.email == "pro_low@test.com" && proLow.subscriptionTier == Some("PRO")
    ensures proLow.remainingQuota == Some(30)
    ensures free.email == "free@test.com" && free.subscriptionTier == Some("FREE")
    ensures free.remainingQuota == Some(100)
  {
    var supported := ["claude-opus-4-6", "claude-sonnet-4-5"];
    ultraHigh := CreateTestToken("ultra_high@test.com", Some("ULTRA"), 1.0, None, Some(80), supported, now);
    ultraLow := CreateTestToken("ultra_low@test.com", Some("ULTRA"), 1.0, None, Some(20), supported, now);
    proHigh := CreateTestToken("pro_high@test.com", Some("PRO"), 1.0, None, Some(90), supported, now);
    proLow := CreateTestToken("pro_low@test.com", Some("PRO"), 1.0, None, Some(30), supported, now);
    free := CreateTestToken("free@test.com", Some("FREE"), 1.0, None, Some(100), supported, now);
  }

  /** The emails of the mixed pool, best first. */
  lemma MixedPoolEmails(expected: seq<ProxyToken>)
    requires |expected| == 5
    requires expected[0].email == "ultra_high@test.com" && expected[1].email == "ultra_low@test.com"
    requires expected[2].email == "pro_high@test.com" && expected[3].email == "pro_low@test.com"
    requires expected[4].email == "free@test.com"
    ensures Emails(expected) == ["ultra_high@test.com", "ultra_low@test.com", "pro_high@test.com",
                                 "pro_low@test.com", "free@test.com"]
  {
  }

  /** The scrambled order of the mixed-pool test holds the same accounts as the sorted one. */
  lemma Scrambled<T>(a: T, b: T, c: T, d: T, e: T)
    ensures multiset([c, e, b, d, a]) == multiset([a, b, c, d, e])
  {
    FiveAsUnion(c, e, b, d, a);
    FiveAsUnion(a, b, c, d, e);
  }

  /** The multiset of a five-element sequence is the union of its elements (a proof step, split off to keep the solver small). */
  lemma FiveAsUnion<T>(a: T, b: T, c: T, d: T, e: T)
    ensures multiset([a, b, c, d, e]) == multiset{a} + multiset{b} + multiset{c} + multiset{d} + multiset{e}
  {
    FourAsUnion(a, b, c, d);
    AppendOne([a, b, c, d], e);
    assert [a, b, c, d] + [e] == [a, b, c, d, e];
  }

  /** The four-element case of FiveAsUnion (a proof step, split off to keep the solver small). */
  lemma FourAsUnion<T>(a: T, b: T, c: T, d: T)
    ensures multiset([a, b, c, d]) == multiset{a} + multiset{b} + multiset{c} + multiset{d}
  {
    AppendOne([a, b, c], d);
    assert [a, b, c] + [d] == [a, b, c, d];
  }

  /** Appending one element adds it to the multiset (a proof step, split off to keep the solver small). */
  lemma AppendOne<T>(s: seq<T>, a: T)
    ensures multiset(s + [a]) == multiset(s) + multiset{a}
  {
  }

  /** The mixed pool, listed best first, stands in strictly ascending comparator order. */
  lemma MixedPoolOrder(expected: seq<ProxyToken>, m: string)
    requires |expected| == 5
    requires expected[0].subscriptionTier == Some("ULTRA") && expected[0].remainingQuota == Some(80)
    requires expected[1].subscriptionTier == Some("ULTRA") && expected[1].remainingQuota == Some(20)
    requires expected[2].subscriptionTier == Some("PRO") && expected[2].remainingQuota == Some(90)
    requires expected[3].subscriptionTier == Some("PRO") && expected[3].remainingQuota == Some(30)
    requires expected[4].subscriptionTier == Some("FREE") && expected[4].remainingQuota == Some(100)
    ensures SortedFor(expected, m) && DistinctRanks(expected, m)
  {
    TierPriorityExamples();
    StrictChainSorted(expected, m);
  }

  /**
   * Sorts `pool` in place and returns the emails in the resulting order, which is
   * `expected` whenever `expected` is a sorted arrangement of the same accounts with
   * distinct ranks.
   */
  method SortScrambledPool(expected: seq<ProxyToken>, pool: seq<ProxyToken>, model: string)
    returns (emails: seq<string>)
    requires multiset(pool) == multiset(expected)
    requires SortedFor(expected, model) && DistinctRanks(expected, model)
    ensures emails == Emails(expected)
  {
    var a := new ProxyToken[|pool|](i requires 0 <= i < |pool| => pool[i]);
    assert a[..] == pool;
    SortTokensForModel(a, model);
    SortedPermutationUnique(expected, a[..], model);
    emails := Emails(a[..]);
  }
}
