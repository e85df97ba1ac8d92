/** The small classification helpers of the dashboard (App.tsx): the currency
    sign shown before prices, the colour band of a conviction score and the
    badge colour of a position-management action. */
module Display {
  import opened Seqs
  import opened Text
  import opened Symbols

  // ---------------------------------------------------------------------------
  // getCurrencySymbol

  /** The currency codes with a sign of their own. */
  const CurrencySigns: map<string, string> :=
    map["EUR" := "\U{20AC}", "CNY" := "\U{00A5}", "USD" := "$", "GBP" := "\U{00A3}", "CHF" := "\U{20A3}"]

  /** `getCurrencySymbol`: no code (or an empty one) shows a dollar sign, the
      five known codes show their sign, and any other code is shown as is. */
  function CurrencySymbol(currency: Option<string>): (r: string)
    ensures !HasText(currency) ==> r == "$"
    ensures HasText(currency) && currency.value in CurrencySigns ==> r == CurrencySigns[currency.value]
    ensures HasText(currency) && currency.value !in CurrencySigns ==> r == currency.value
  {
    if !HasText(currency) then "$"
    else
      var c := currency.value;
      if c == "EUR" then "\U{20AC}"
      else if c == "CNY" then "\U{00A5}"
      else if c == "USD" then "$"
      else if c == "GBP" then "\U{00A3}"
      else if c == "CHF" then "\U{20A3}"
      else c
  }

  /** The sign is never empty, and an unknown code is its own sign. */
  lemma CurrencySymbolNonEmpty(currency: Option<string>)
    ensures CurrencySymbol(currency) != ""
    ensures HasText(currency) && CurrencySymbol(currency) != currency.value ==> currency.value in CurrencySigns
  {
  }

  // ---------------------------------------------------------------------------
  // getScoreColor

  /** The four colour bands of a score, from best to worst. */
  datatype ScoreColor = Emerald | Blue | Yellow | Rose {
    function ClassName(): string {
      match this
      case Emerald => "text-emerald-400"
      case Blue => "text-blue-400"
      case Yellow => "text-yellow-400"
      case Rose => "text-rose-400"
    }

    /** 3 for the best band down to 0 for the worst. */
    function Rank(): nat {
      match this
      case Emerald => 3
      case Blue => 2
      case Yellow => 1
      case Rose => 0
    }
  }

  /** `getScoreColor`: a step function with thresholds 75, 50 and 30. */
  function ScoreColorOf(score: real): (c: ScoreColor)
    ensures c == Emerald <==> score >= 75.0
    ensures c == Blue <==> 50.0 <= score < 75.0
    ensures c == Yellow <==> 30.0 <= score < 50.0
    ensures c == Rose <==> score < 30.0
  {
    if score >= 75.0 then Emerald
    else if score >= 50.0 then Blue
    else if score >= 30.0 then Yellow
    else Rose
  }

  /** A higher score never gets a worse colour. */
  lemma ScoreColorMonotone(a: real, b: real)
    requires a <= b
    ensures ScoreColorOf(a).Rank() <= ScoreColorOf(b).Rank()
  {
  }

  // ---------------------------------------------------------------------------
  // getActionColor

  /** The badge styles an action can receive. */
  datatype ActionBadge = NoAction | Accumulate | Exit | Reduce | Other {
    function ClassName(): string {
      match this
      case NoAction => "bg-slate-700 text-slate-300"
      case Accumulate => "bg-emerald-500 text-white animate-pulse"
      case Exit => "bg-rose-500 text-white animate-pulse"
      case Reduce => "bg-amber-500 text-white"
      case Other => "bg-blue-500 text-white"
    }
  }

  /** `getActionColor`: the action text is lower-cased and searched for
      "buy"/"add", then "sell"/"stop", then "trim"; the first match decides,
      and text with none of the five words gets the neutral badge. */
  function ActionColor(action: Option<string>): (b: ActionBadge)
    ensures b == NoAction <==> !HasText(action)
    ensures b == Accumulate ==> Contains(ToLower(action.value), "buy") || Contains(ToLower(action.value), "add")
    ensures b == Exit ==> Contains(ToLower(action.value), "sell") || Contains(ToLower(action.value), "stop")
    ensures b == Reduce ==> Contains(ToLower(action.value), "trim")
    ensures (HasText(action) && (Contains(ToLower(action.value), "buy") || Contains(ToLower(action.value), "add")))
      ==> b == Accumulate
    ensures (HasText(action) && !(Contains(ToLower(action.value), "buy") || Contains(ToLower(action.value), "add"))
             && (Contains(ToLower(action.value), "sell") || Contains(ToLower(action.value), "stop")))
      ==> b == Exit
    ensures (HasText(action) && !(Contains(ToLower(action.value), "buy") || Contains(ToLower(action.value), "add"))
             && !(Contains(ToLower(action.value), "sell") || Contains(ToLower(action.value), "stop"))
             && Contains(ToLower(action.value), "trim"))
      ==> b == Reduce
    ensures b == Other <==>
              HasText(action) && !Contains(ToLower(action.value), "buy") && !Contains(ToLower(action.value), "add")
              && !Contains(ToLower(action.value), "sell") && !Contains(ToLower(action.value), "stop")
              && !Contains(ToLower(action.value), "trim")
  {
    if !HasText(action) then NoAction
    else
      var a := ToLower(action.value);
      if Contains(a, "buy") || Contains(a, "add") then Accumulate
      else if Contains(a, "sell") || Contains(a, "stop") then Exit
      else if Contains(a, "trim") then Reduce
      else Other
  }

  /** The badge does not depend on letter case. */
  lemma ActionColorIgnoresCase(action: string)
    ensures ActionColor(Some(action)) == ActionColor(Some(ToLower(action)))
  {
    LowerOfLower(action);
  }

  lemma {:induction false} OccursAtStart(s: string, p: string)
    requires |p| <= |s| && s[..|p|] == p
    ensures Contains(s, p)
  {
    assert OccursAt(s, p, 0);
  }

  /** The seven actions an analysis can recommend: Buy and Add accumulate,
      Sell and Stop Loss exit, Trim reduces, Hold and Wait get the neutral
      colour. */
  lemma ActionColorOfBuyAndAdd()
    ensures ActionColor(Some("Buy")) == Accumulate
    ensures ActionColor(Some("Add")) == Accumulate
  {
    assert ToLower("Buy") == "buy";
    OccursAtStart("buy", "buy");
    assert ToLower("Add") == "add";
    OccursAtStart("add", "add");
  }

  /** A word containing a letter that `s` lacks does not occur in `s`. */
  lemma MissingLetter(s: string, p: string, k: nat)
    requires k < |p| && p[k] !in s
    ensures !Contains(s, p)
  {
    forall i: nat | i <= |s| ensures !OccursAt(s, p, i) {
      if i + |p| <= |s| {
        assert s[i..i + |p|][k] == s[i + k];
      }
    }
  }

  lemma ActionColorOfSellAndStopLoss()
    ensures ActionColor(Some("Sell")) == Exit
    ensures ActionColor(Some("Stop Loss")) == Exit
  {
    assert ToLower("Sell") == "sell";
    OccursAtStart("sell", "sell");
    MissingLetter("sell", "buy", 0);
    MissingLetter("sell", "add", 0);
    assert ToLower("Stop Loss") == "stop loss";
    OccursAtStart("stop loss", "stop");
    MissingLetter("stop loss", "buy", 0);
    MissingLetter("stop loss", "add", 0);
  }

  lemma ActionColorOfTrim()
    ensures ActionColor(Some("Trim")) == Reduce
  {
    assert ToLower("Trim") == "trim";
    OccursAtStart("trim", "trim");
    MissingLetter("trim", "buy", 0);
    MissingLetter("trim", "add", 0);
    MissingLetter("trim", "sell", 0);
    MissingLetter("trim", "stop", 0);
  }

  lemma ActionColorOfHoldAndWait()
    ensures ActionColor(Some("Hold")) == Other
    ensures ActionColor(Some("Wait")) == Other
  {
    assert ToLower("Hold") == "hold";
    MissingLetter("hold", "buy", 0);
    MissingLetter("hold", "add", 0);
    MissingLetter("hold", "sell", 0);
    MissingLetter("hold", "stop", 0);
    MissingLetter("hold", "trim", 0);
    assert ToLower("Wait") == "wait";
    MissingLetter("wait", "buy", 0);
    MissingLetter("wait", "add", 1);
    MissingLetter("wait", "sell", 0);
    MissingLetter("wait", "stop", 0);
    MissingLetter("wait", "trim", 1);
  }
}
