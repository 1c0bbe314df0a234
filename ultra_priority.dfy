/**
 * Account ranking for high-end models: tier classification, the three-key comparator,
 * the capability filter, the "ultra-required" model test, the test-token builder and
 * the in-place sort of the account pool.
 */
module UltraPriority {
  import opened Wrappers
  import opened Strings

  /** `std::cmp::Ordering`. */
  datatype Ordering = Less | Equal | Greater

  /**
   * One upstream account as held by the proxy. The health score is a real number:
   * the source's `f32` and its NaN behaviour are not modelled.
   */
  datatype ProxyToken = ProxyToken(
    accountId: string,
    accessToken: string,
    refreshToken: string,
    expiresIn: int,
    timestamp: int,
    email: string,
    accountPath: string,
    projectId: Option<string>,
    subscriptionTier: Option<string>,
    remainingQuota: Option<int>,
    protectedModels: set<string>,
    healthScore: real,
    resetTime: Option<int>,
    validationBlocked: bool,
    validationBlockedUntil: int,
    modelQuotas: map<string, int>)

  /**
   * Builds a test account whose quota map gives every supported model the account's
   * remaining quota, or 100 when that is absent. `now` stands for the clock reading.
   */
  method CreateTestToken(email: string, tier: Option<string>, healthScore: real,
                         resetTime: Option<int>, remainingQuota: Option<int>,
                         supportedModels: seq<string>, now: int)
    returns (t: ProxyToken)
    ensures t.modelQuotas.Keys == set m | m in supportedModels
    ensures forall m :: m in t.modelQuotas ==> t.modelQuotas[m] == remainingQuota.UnwrapOr(100)
    ensures t.email == email && t.accountId == email
    ensures t.subscriptionTier == tier && t.remainingQuota == remainingQuota
    ensures t.healthScore == healthScore && t.resetTime == resetTime
    ensures t.accessToken == "test_token" && t.refreshToken == "test_refresh"
    ensures t.expiresIn == 3600 && t.timestamp == now + 3600
    ensures t.accountPath == "/tmp/test" && t.projectId == None
    ensures t.protectedModels == {} && !t.validationBlocked && t.validationBlockedUntil == 0
  {
    var modelQuotas: map<string, int> := map[];
    for k := 0 to |supportedModels|
      invariant modelQuotas.Keys == set m | m in supportedModels[..k]
      invariant forall m :: m in modelQuotas ==> modelQuotas[m] == remainingQuota.UnwrapOr(100)
    {
      assert supportedModels[..k + 1] == supportedModels[..k] + [supportedModels[k]];
      modelQuotas := modelQuotas[supportedModels[k] := remainingQuota.UnwrapOr(100)];
    }
    assert supportedModels[..|supportedModels|] == supportedModels;
    t := ProxyToken(email, "test_token", "test_refresh", 3600, now + 3600, email, "/tmp/test",
                    None, tier, remainingQuota, {}, healthScore, resetTime, false, 0, modelQuotas);
  }

  /** Model families understood to need the top subscription tier. */
  const UltraRequiredModels: seq<string> := ["claude-opus-4-6", "claude-opus-4-5", "opus"]

  /** Whether one of `names` occurs in `text` (Rust's `iter().any(|m| text.contains(m))`). */
  predicate ContainsAny(text: string, names: seq<string>) {
    exists m :: m in names && Contains(text, m)
  }

  /**
   * Whether the lower-cased model name contains one of the ultra-required names, which
   * comes to whether it contains "opus".
   */
  predicate IsUltraRequiredModel(model: string)
    ensures IsUltraRequiredModel(model) <==> Contains(ToLower(model), "opus")
  {
    UltraListIsOpus(ToLower(model));
    ContainsAny(ToLower(model), UltraRequiredModels)
  }

  /** The two specific names on the list both contain "opus", so the list is one wildcard. */
  lemma UltraListIsOpus(lower: string)
    ensures ContainsAny(lower, UltraRequiredModels) <==> Contains(lower, "opus")
  {
    assert OccursAt("claude-opus-4-6", "opus", 7);
    assert OccursAt("claude-opus-4-5", "opus", 7);
    if Contains(lower, "claude-opus-4-6") {
      ContainsTransitive(lower, "claude-opus-4-6", "opus");
    }
    if Contains(lower, "claude-opus-4-5") {
      ContainsTransitive(lower, "claude-opus-4-5", "opus");
    }
    assert "opus" in UltraRequiredModels;
  }

  /** The exact high-end names of the test file are recognised. */
  lemma UltraRequiredExactNames()
    ensures IsUltraRequiredModel("claude-opus-4-6")
    ensures IsUltraRequiredModel("claude-opus-4-5")
  {
    OpusAt("claude-opus-4-6", 7);
    OpusAt("claude-opus-4-5", 7);
  }

  /** Recognition ignores letter case. */
  lemma UltraRequiredAnyCase()
    ensures IsUltraRequiredModel("Claude-Opus-4-6")
    ensures IsUltraRequiredModel("CLAUDE-OPUS-4-5")
  {
    OpusAt("Claude-Opus-4-6", 7);
    OpusAt("CLAUDE-OPUS-4-5", 7);
  }

  /** Any name containing "opus" is recognised: the bare word, or the word with a suffix. */
  lemma UltraRequiredWildcard()
    ensures IsUltraRequiredModel("opus")
    ensures IsUltraRequiredModel("opus-4-6-latest")
  {
    OpusAt("opus", 0);
    OpusAt("opus-4-6-latest", 0);
  }

  /** A name with a path in front of "opus" is recognised too. */
  lemma UltraRequiredWithPath()
    ensures IsUltraRequiredModel("models/claude-opus-4-6")
  {
    OpusAt("models/claude-opus-4-6", 14);
  }

  /** The ordinary Claude names of the test file are not high-end models. */
  lemma OrdinaryClaudeModels()
    ensures !IsUltraRequiredModel("claude-sonnet-4-5")
    ensures !IsUltraRequiredModel("claude-sonnet")
    ensures !IsUltraRequiredModel("claude-haiku")
  {
    OpusMissing("claude-sonnet-4-5", 'p');
    OpusMissing("claude-sonnet", 'p');
    OpusMissing("claude-haiku", 'o');
  }

  /** Gemini names, "pro" among them, are not high-end models. */
  lemma OrdinaryGeminiModels()
    ensures !IsUltraRequiredModel("gemini-1.5-flash")
    ensures !IsUltraRequiredModel("gemini-2.0-pro")
  {
    OpusMissing("gemini-1.5-flash", 'o');
    OpusMissing("gemini-2.0-pro", 'u');
  }

  /** A model whose name has "opus", in any case, at position `i` is ultra-required. */
  lemma OpusAt(model: string, i: nat)
    requires i + 4 <= |model|
    requires LowerChar(model[i]) == 'o' && LowerChar(model[i + 1]) == 'p'
    requires LowerChar(model[i + 2]) == 'u' && LowerChar(model[i + 3]) == 's'
    ensures IsUltraRequiredModel(model)
  {
    LowerSlice(model, i, i + 4);
    assert ToLower(model[i..i + 4]) == "opus";
    assert OccursAt(ToLower(model), "opus", i);
  }

  /** A model lacking, in either case, a letter of "opus" is not ultra-required. */
  lemma OpusMissing(model: string, c: char)
    requires c in "opus" && c !in model && (c as int - 32) as char !in model
    ensures !IsUltraRequiredModel(model)
  {
    LowerMissingChar(model, c);
    NotContainsMissingChar(ToLower(model), "opus", c);
  }

  /**
   * Tier priority of a subscription label: 0 for ultra, 1 for pro, 2 for free, 3 for
   * anything else, tried in that order on the lower-cased label; an absent label is "".
   */
  function TierPriority(tier: Option<string>): (p: nat)
    ensures p <= 3
  {
    var t := ToLower(tier.UnwrapOr(""));
    if Contains(t, "ultra") then 0
    else if Contains(t, "pro") then 1
    else if Contains(t, "free") then 2
    else 3
  }

  /** Classification ignores letter case, and an absent label ranks with the unknown tiers. */
  lemma TierPriorityCaseInsensitive(tierName: string)
    ensures TierPriority(Some(tierName)) == TierPriority(Some(ToLower(tierName)))
    ensures TierPriority(None) == TierPriority(Some("")) == 3
  {
    ToLowerIdempotent(tierName);
    assert ToLower("") == "";
  }

  /** The labels the tests use. */
  lemma TierPriorityExamples()
    ensures TierPriority(Some("ULTRA")) == 0
    ensures TierPriority(Some("PRO")) == 1
    ensures TierPriority(Some("FREE")) == 2
  {
    assert ToLower("ULTRA") == "ultra";
    assert OccursAt("ultra", "ultra", 0);
    assert ToLower("PRO") == "pro";
    assert OccursAt("pro", "pro", 0);
    NotContainsMissingChar("pro", "ultra", 'u');
    assert ToLower("FREE") == "free";
    assert OccursAt("free", "free", 0);
    NotContainsMissingChar("free", "ultra", 'u');
    NotContainsMissingChar("free", "pro", 'p');
  }

  /** The quota the comparator ranks by: `remaining_quota`, absent counting as 0. */
  function Quota(t: ProxyToken): int {
    t.remainingQuota.UnwrapOr(0)
  }

  /**
   * The comparator the tests mirror: tier ascending, then quota descending, then health
   * descending; the target model is not consulted.
   */
  function CompareTokensForModel(a: ProxyToken, b: ProxyToken, targetModel: string): (r: Ordering)
    ensures r == Equal <==> TierPriority(a.subscriptionTier) == TierPriority(b.subscriptionTier)
                            && Quota(a) == Quota(b) && a.healthScore == b.healthScore
    ensures r == Less ==> TierPriority(a.subscriptionTier) <= TierPriority(b.subscriptionTier)
    ensures r == Greater ==> TierPriority(a.subscriptionTier) >= TierPriority(b.subscriptionTier)
  {
    var ta := TierPriority(a.subscriptionTier);
    var tb := TierPriority(b.subscriptionTier);
    if ta < tb then Less
    else if ta > tb then Greater
    else if Quota(b) < Quota(a) then Less
    else if Quota(b) > Quota(a) then Greater
    else if a.healthScore > b.healthScore then Less
    else if a.healthScore < b.healthScore then Greater
    else Equal
  }

  /** A better tier always wins, whatever the quotas and health scores. */
  lemma TierDominates(a: ProxyToken, b: ProxyToken, m: string)
    requires TierPriority(a.subscriptionTier) < TierPriority(b.subscriptionTier)
    ensures CompareTokensForModel(a, b, m) == Less
    ensures CompareTokensForModel(b, a, m) == Greater
  {
  }

  /** Within one tier the higher quota wins, whatever the health scores. */
  lemma QuotaBreaksTierTie(a: ProxyToken, b: ProxyToken, m: string)
    requires TierPriority(a.subscriptionTier) == TierPriority(b.subscriptionTier)
    requires Quota(a) > Quota(b)
    ensures CompareTokensForModel(a, b, m) == Less
    ensures CompareTokensForModel(b, a, m) == Greater
  {
  }

  /** With tier and quota equal the healthier account wins; otherwise the two are Equal. */
  lemma HealthBreaksQuotaTie(a: ProxyToken, b: ProxyToken, m: string)
    requires TierPriority(a.subscriptionTier) == TierPriority(b.subscriptionTier)
    requires Quota(a) == Quota(b)
    ensures a.healthScore > b.healthScore ==> CompareTokensForModel(a, b, m) == Less
    ensures a.healthScore == b.healthScore <==> CompareTokensForModel(a, b, m) == Equal
  {
  }

  /** The comparator reads neither the target model nor the email. */
  lemma CompareIgnoresTargetAndEmail(a: ProxyToken, b: ProxyToken, m1: string, m2: string, e: string)
    ensures CompareTokensForModel(a, b, m1) == CompareTokensForModel(a, b, m2)
    ensures CompareTokensForModel(a.(email := e), b, m1) == CompareTokensForModel(a, b, m1)
  {
  }

  /** `a` may stand before `b`: the comparator does not put `b` first. */
  predicate Before(a: ProxyToken, b: ProxyToken, m: string) {
    CompareTokensForModel(a, b, m) != Greater
  }

  /** The comparator is a total preorder: antisymmetric, total and transitive. */
  lemma CompareIsTotalPreorder(a: ProxyToken, b: ProxyToken, c: ProxyToken, m: string)
    ensures CompareTokensForModel(a, b, m) == Less <==> CompareTokensForModel(b, a, m) == Greater
    ensures CompareTokensForModel(a, b, m) == Equal <==> CompareTokensForModel(b, a, m) == Equal
    ensures Before(a, b, m) || Before(b, a, m)
    ensures Before(a, b, m) && Before(b, c, m) ==> Before(a, c, m)
    ensures CompareTokensForModel(a, b, m) == Less && CompareTokensForModel(b, c, m) == Less
            ==> CompareTokensForModel(a, c, m) == Less
  {
  }

  /** Capability filter: keeps, in order, the accounts whose quota map has the target model. */
  function FilterTokensByCapability(tokens: seq<ProxyToken>, targetModel: string): (r: seq<ProxyToken>)
    ensures forall t :: t in r ==> targetModel in t.modelQuotas
    ensures IsSubsequence(r, tokens)
    ensures forall t :: multiset(r)[t] == if targetModel in t.modelQuotas then multiset(tokens)[t] else 0
  {
    if tokens == [] then []
    else
      var rest := FilterTokensByCapability(tokens[1..], targetModel);
      assert tokens == [tokens[0]] + tokens[1..];
      if targetModel in tokens[0].modelQuotas then [tokens[0]] + rest else rest
  }

  /** `r` is `s` with some elements deleted, the survivors kept in order. */
  predicate IsSubsequence<T(==)>(r: seq<T>, s: seq<T>)
    decreases |s|
  {
    if r == [] then true
    else if s == [] then false
    else if r[0] == s[0] then IsSubsequence(r[1..], s[1..])
    else IsSubsequence(r, s[1..])
  }

  /** Every adjacent-or-not pair of `s` stands in the comparator's order. */
  ghost predicate SortedFor(s: seq<ProxyToken>, m: string) {
    forall i, j :: 0 <= i < j < |s| ==> Before(s[i], s[j], m)
  }

  /** Two accounts of `s` compare Equal only when they are the same account record. */
  ghost predicate DistinctRanks(s: seq<ProxyToken>, m: string) {
    forall x, y :: x in s && y in s && CompareTokensForModel(x, y, m) == Equal ==> x == y
  }

  /** `sort_by` with the comparator: an in-place insertion sort of the pool. */
  method SortTokensForModel(tokens: array<ProxyToken>, targetModel: string)
    modifies tokens
    ensures SortedFor(tokens[..], targetModel)
    ensures multiset(tokens[..]) == old(multiset(tokens[..]))
  {
    if tokens.Length == 0 { return; }
    var i := 1;
    while i < tokens.Length
      invariant 1 <= i <= tokens.Length
      invariant SortedFor(tokens[..i], targetModel)
      invariant multiset(tokens[..]) == old(multiset(tokens[..]))
    {
      var j := i;
      while j > 0 && CompareTokensForModel(tokens[j - 1], tokens[j], targetModel) == Greater
        invariant 0 <= j <= i
        invariant forall k, l :: 0 <= k < l <= i && l != j ==> Before(tokens[k], tokens[l], targetModel)
        invariant multiset(tokens[..]) == old(multiset(tokens[..]))
      {
        CompareIsTotalPreorder(tokens[j - 1], tokens[j], tokens[j], targetModel);
        tokens[j - 1], tokens[j] := tokens[j], tokens[j - 1];
        j := j - 1;
      }
      forall k | 0 <= k < j ensures Before(tokens[k], tokens[j], targetModel) {
        CompareIsTotalPreorder(tokens[k], tokens[j - 1], tokens[j], targetModel);
      }
      i := i + 1;
    }
    assert tokens[..tokens.Length] == tokens[..];
  }

  /**
   * Two orderings of the same accounts that both follow the comparator are the same
   * ordering, as long as no two different accounts rank Equal.
   */
  lemma {:induction false} SortedPermutationUnique(s: seq<ProxyToken>, t: seq<ProxyToken>, m: string)
    requires multiset(s) == multiset(t)
    requires SortedFor(s, m) && SortedFor(t, m)
    requires DistinctRanks(s, m)
    ensures s == t
    decreases |s|
  {
    if s == [] {
      assert |t| == |multiset(t)| == 0;
    } else {
      assert |t| == |multiset(t)| == |s|;
      SortedHeadsAgree(s, t, m);
      SameHeadTails(s, t);
      SortedSuffix(s, m);
      SortedSuffix(t, m);
      DistinctSuffix(s, m);
      SortedPermutationUnique(s[1..], t[1..], m);
      assert s == [s[0]] + s[1..] && t == [t[0]] + t[1..];
    }
  }

  /** Permutations that start alike are permutations after the first element too. */
  lemma SameHeadTails<T>(s: seq<T>, t: seq<T>)
    requires s != [] && t != [] && s[0] == t[0] && multiset(s) == multiset(t)
    ensures multiset(s[1..]) == multiset(t[1..])
  {
    assert s == [s[0]] + s[1..] && t == [t[0]] + t[1..];
    assert multiset(s[1..]) == multiset(s) - multiset{s[0]};
  }

  /** Under the hypotheses of SortedPermutationUnique both orderings start with the same account. */
  lemma SortedHeadsAgree(s: seq<ProxyToken>, t: seq<ProxyToken>, m: string)
    requires s != [] && multiset(s) == multiset(t)
    requires SortedFor(s, m) && SortedFor(t, m)
    requires DistinctRanks(s, m)
    ensures t != [] && s[0] == t[0]
  {
    assert s[0] in multiset(t);
    assert t[0] in multiset(s);
    var j :| 0 <= j < |t| && t[j] == s[0];
    var i :| 0 <= i < |s| && s[i] == t[0];
    assert Before(s[0], t[0], m) by { if i > 0 { assert Before(s[0], s[i], m); } }
    assert Before(t[0], s[0], m) by { if j > 0 { assert Before(t[0], t[j], m); } }
    CompareIsTotalPreorder(s[0], t[0], t[0], m);
  }

  /** Dropping the first account keeps an ordering sorted. */
  lemma SortedSuffix(s: seq<ProxyToken>, m: string)
    requires s != [] && SortedFor(s, m)
    ensures SortedFor(s[1..], m)
  {
    forall i, j | 0 <= i < j < |s| - 1 ensures Before(s[1..][i], s[1..][j], m) {
      assert Before(s[i + 1], s[j + 1], m);
    }
  }

  /** Dropping the first account keeps the ranks distinct. */
  lemma DistinctSuffix(s: seq<ProxyToken>, m: string)
    requires s != [] && DistinctRanks(s, m)
    ensures DistinctRanks(s[1..], m)
  {
    forall x, y | x in s[1..] && y in s[1..] && CompareTokensForModel(x, y, m) == Equal
      ensures x == y
    {
      assert x in s && y in s;
    }
  }

  /**
   * A pool in which every account ranks strictly before the next one is sorted, and no
   * two of its accounts rank Equal.
   */
  lemma {:induction false} StrictChainSorted(s: seq<ProxyToken>, m: string)
    requires forall i :: 0 <= i < |s| - 1 ==> CompareTokensForModel(s[i], s[i + 1], m) == Less
    ensures forall i, j :: 0 <= i < j < |s| ==> CompareTokensForModel(s[i], s[j], m) == Less
    ensures SortedFor(s, m) && DistinctRanks(s, m)
    decreases |s|
  {
    if |s| > 1 {
      StrictChainSorted(s[1..], m);
      forall i, j | 0 <= i < j < |s| ensures CompareTokensForModel(s[i], s[j], m) == Less {
        if i > 0 {
          assert s[i] == s[1..][i - 1] && s[j] == s[1..][j - 1];
        } else if j > 1 {
          assert s[1] == s[1..][0] && s[j] == s[1..][j - 1];
          CompareIsTotalPreorder(s[0], s[1], s[j], m);
        }
      }
    }
    forall x, y | x in s && y in s && CompareTokensForModel(x, y, m) == Equal ensures x == y {
      var i :| 0 <= i < |s| && s[i] == x;
      var j :| 0 <= j < |s| && s[j] == y;
      if j < i {
        CompareIsTotalPreorder(x, y, y, m);
      }
    }
  }
}
