/**
 * The blast-radius map (frontend/src/components/dashboard/BlastRadiusMap.jsx):
 * one card per merchant, coloured by the most severe signal naming that
 * merchant.
 */
module BlastRadius {
  import opened Outcomes
  import opened Views

  /** The colour of a merchant card. */
  datatype Tier = Nominal | Warn | Critical

  function Level(t: Tier): nat {
    match t
    case Nominal => 0
    case Warn => 1
    case Critical => 2
  }

  /** What one signal says about its merchant: CRITICAL is critical, ERROR and WARN a warning, anything else nothing. */
  function Contribution(s: SignalView): (r: Option<Tier>)
    ensures r.Some? ==> r.value != Nominal
    ensures r == Some(Critical) <==> s.severity == "CRITICAL"
    ensures r == Some(Warn) <==> s.severity == "ERROR" || s.severity == "WARN"
    ensures r.None? <==> s.severity != "CRITICAL" && s.severity != "ERROR" && s.severity != "WARN"
  {
    if s.severity == "CRITICAL" then Some(Critical)
    else if s.severity == "ERROR" || s.severity == "WARN" then Some(Warn)
    else None
  }

  /** The more severe of two optional tiers. */
  function Worse(a: Option<Tier>, b: Option<Tier>): Option<Tier> {
    if a.None? then b
    else if b.None? then a
    else if Level(a.value) >= Level(b.value) then a
    else b
  }

  /** `Worse` is the least upper bound of its two arguments. */
  lemma WorseBounds(a: Option<Tier>, b: Option<Tier>)
    ensures Worse(a, b).None? <==> a.None? && b.None?
    ensures Worse(a, b) == a || Worse(a, b) == b
    ensures a.Some? ==> Level(a.value) <= Level(Worse(a, b).value)
    ensures b.Some? ==> Level(b.value) <= Level(Worse(a, b).value)
  {
  }

  /**
   * Reference definition: the most severe contribution among the signals
   * naming `merchantId`, `None` when none contributes. No signal names the
   * empty id, since a signal without a merchant is skipped.
   */
  function TierOf(signals: seq<SignalView>, merchantId: string): Option<Tier> {
    if |signals| == 0 || merchantId == "" then None
    else
      var last := signals[|signals| - 1];
      Worse(TierOf(signals[..|signals| - 1], merchantId),
            if last.merchantId == merchantId then Contribution(last) else None)
  }

  /**
   * The `forEach` that builds `merchantSeverityMap`: a merchant has an entry
   * exactly when one of its signals contributes, and the entry is the worst
   * contribution.
   */
  method MerchantSeverityMap(signals: seq<SignalView>) returns (m: map<string, Tier>)
    ensures forall id :: id in m <==> TierOf(signals, id).Some?
    ensures forall id :: id in m ==> TierOf(signals, id) == Some(m[id])
  {
    m := map[];
    var i := 0;
    while i < |signals|
      invariant 0 <= i <= |signals|
      invariant forall id :: id in m <==> TierOf(signals[..i], id).Some?
      invariant forall id :: id in m ==> TierOf(signals[..i], id) == Some(m[id])
    {
      var sig := signals[i];
      if sig.merchantId != "" {
        if sig.severity == "CRITICAL" {
          m := m[sig.merchantId := Critical];
        } else if sig.severity == "ERROR" || sig.severity == "WARN" {
          if sig.merchantId !in m || m[sig.merchantId] != Critical {
            m := m[sig.merchantId := Warn];
          }
        }
      }
      assert signals[..i + 1][..i] == signals[..i];
      i := i + 1;
    }
    assert signals[..|signals|] == signals;
  }

  /**
   * The worst tier is a maximum: it is `None` exactly when no signal of the
   * merchant contributes, it is attained by one of them, and it bounds all of
   * them.
   */
  lemma {:induction false} TierOfIsMaximum(signals: seq<SignalView>, id: string)
    ensures TierOf(signals, id).None? <==>
              (id == "" || forall s :: s in signals && s.merchantId == id ==> Contribution(s).None?)
    ensures TierOf(signals, id).Some? ==>
              exists s :: s in signals && s.merchantId == id && Contribution(s) == TierOf(signals, id)
    ensures id != "" ==>
              forall s :: s in signals && s.merchantId == id && Contribution(s).Some? ==>
                TierOf(signals, id).Some? && Level(Contribution(s).value) <= Level(TierOf(signals, id).value)
  {
    if |signals| > 0 && id != "" {
      var init := signals[..|signals| - 1];
      var last := signals[|signals| - 1];
      var c := if last.merchantId == id then Contribution(last) else None;
      TierOfIsMaximum(init, id);
      WorseBounds(TierOf(init, id), c);
      assert TierOf(signals, id) == Worse(TierOf(init, id), c);
      assert signals == init + [last];
      assert forall s :: s in signals <==> s in init || s == last;
      forall s | s in signals && s.merchantId == id && Contribution(s).Some?
        ensures TierOf(signals, id).Some? && Level(Contribution(s).value) <= Level(TierOf(signals, id).value)
      {
        if s in init {
          assert Level(Contribution(s).value) <= Level(TierOf(init, id).value);
        } else {
          assert c == Contribution(s);
        }
      }
    }
  }

  /** Neither the order of the signals nor repeats change a merchant's tier. */
  lemma OrderIrrelevant(a: seq<SignalView>, b: seq<SignalView>, id: string)
    requires forall s :: s in a <==> s in b
    ensures TierOf(a, id) == TierOf(b, id)
  {
    TierOfIsMaximum(a, id);
    TierOfIsMaximum(b, id);
    if TierOf(a, id).Some? {
      var sa :| sa in a && sa.merchantId == id && Contribution(sa) == TierOf(a, id);
      var sb :| sb in b && sb.merchantId == id && Contribution(sb) == TierOf(b, id);
      assert Level(TierOf(a, id).value) <= Level(TierOf(b, id).value);
      assert Level(TierOf(b, id).value) <= Level(TierOf(a, id).value);
    }
  }

  /** A signal's status plays no part: resolving one leaves every tier as it was. */
  lemma {:induction false} StatusIgnored(signals: seq<SignalView>, k: nat, status: string, id: string)
    requires k < |signals|
    ensures TierOf(signals[k := signals[k].(status := status)], id) == TierOf(signals, id)
  {
    var changed := signals[k := signals[k].(status := status)];
    if id != "" {
      var n := |signals| - 1;
      if k < n {
        StatusIgnored(signals[..n], k, status, id);
        assert changed[..n] == signals[..n][k := signals[k].(status := status)];
      } else {
        assert changed[..n] == signals[..n];
      }
    }
  }

  /** A further signal never lowers a merchant's tier. */
  lemma NeverDowngrades(signals: seq<SignalView>, s: SignalView, id: string)
    requires TierOf(signals, id).Some?
    ensures TierOf(signals + [s], id).Some?
    ensures Level(TierOf(signals + [s], id).value) >= Level(TierOf(signals, id).value)
  {
    assert (signals + [s])[..|signals|] == signals;
  }

  /** `merchantSeverityMap[merchant.id] || "nominal"`. */
  function CardTier(m: map<string, Tier>, merchantId: string): Tier {
    if merchantId in m then m[merchantId] else Nominal
  }

  /**
   * On the map the loop builds, a card is critical exactly when one of the
   * merchant's signals is CRITICAL, a warning exactly when none is but one is
   * ERROR or WARN, and nominal otherwise.
   */
  lemma CardColour(signals: seq<SignalView>, m: map<string, Tier>, id: string)
    requires id != ""
    requires forall x :: x in m <==> TierOf(signals, x).Some?
    requires forall x :: x in m ==> TierOf(signals, x) == Some(m[x])
    ensures CardTier(m, id) == Critical <==>
              exists s :: s in signals && s.merchantId == id && s.severity == "CRITICAL"
    ensures CardTier(m, id) == Warn <==>
              (forall s :: s in signals && s.merchantId == id ==> s.severity != "CRITICAL")
              && exists s :: s in signals && s.merchantId == id && (s.severity == "ERROR" || s.severity == "WARN")
    ensures CardTier(m, id) == Nominal <==>
              forall s :: s in signals && s.merchantId == id ==>
                s.severity != "CRITICAL" && s.severity != "ERROR" && s.severity != "WARN"
  {
    TierOfIsMaximum(signals, id);
    if CardTier(m, id) == Critical {
      var s :| s in signals && s.merchantId == id && Contribution(s) == TierOf(signals, id);
    } else if CardTier(m, id) == Warn {
      var s :| s in signals && s.merchantId == id && Contribution(s) == TierOf(signals, id);
    }
  }

  const Placeholders: seq<MerchantView> := [
    MerchantView("m1", "Lux Modern", "LM"), MerchantView("m2", "Velvet Direct", "VD"),
    MerchantView("m3", "Nordic Soul", "NS"), MerchantView("m4", "Apex Parts", "AP"),
    MerchantView("m5", "TechFlow Pro", "TP"), MerchantView("m6", "Glow Studio", "GS"),
    MerchantView("m7", "Urban Edge", "UE"), MerchantView("m8", "Zenith Retail", "ZR")]

  /** The merchants shown: those loaded, or eight placeholders when none were. */
  function DisplayMerchants(merchants: seq<MerchantView>): (r: seq<MerchantView>)
    ensures |merchants| > 0 ==> r == merchants
    ensures |merchants| == 0 ==> |r| == 8 && forall i, j :: 0 <= i < j < 8 ==> r[i].id != r[j].id
    ensures |r| > 0
  {
    if |merchants| > 0 then merchants else Placeholders
  }

  /** `merchant.logo || merchant.name[0]`: the logo, else the initial, else nothing. */
  function Logo(m: MerchantView): (r: string)
    ensures m.logo != "" ==> r == m.logo
    ensures m.logo == "" ==> r <= m.name && |r| == (if m.name == "" then 0 else 1)
  {
    if m.logo != "" then m.logo else if m.name != "" then [m.name[0]] else ""
  }
}
