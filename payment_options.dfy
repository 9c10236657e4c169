/**
  The payment options of app.py: which ways of paying a price in Chilean
  pesos (CLP) the shop accepts, which exchange rates are known, and what
  each usable way costs in Argentine pesos (ARS), rounded to two decimals.
 */
module PaymentOptions {
  import opened Wrappers
  import opened Rounding

  /** The five payment channels, in the order app.py tries them. */
  datatype Channel = ClpCasaDeCambio | Usd | Ars | Debito | Credito

  /** Position of a channel in the declared order. */
  function Rank(c: Channel): (r: nat)
    ensures r < 5
  {
    match c
    case ClpCasaDeCambio => 0
    case Usd => 1
    case Ars => 2
    case Debito => 3
    case Credito => 4
  }

  /** The text shown in the "Opción" column for each channel. */
  function Label(c: Channel): string
  {
    match c
    case ClpCasaDeCambio => "Pago en CLP (cambio previo)"
    case Usd => "Pago en USD"
    case Ars => "Pago en ARS"
    case Debito => "Pago con Débito"
    case Credito => "Pago con Crédito"
  }

  /** Distinct channels are shown under distinct labels. */
  lemma LabelsDistinct(c: Channel, d: Channel)
    ensures Label(c) == Label(d) <==> c == d
  {
    if c != d {
      assert Label(c)[8] != Label(d)[8] || Label(c)[10] != Label(d)[10];
    }
  }

  /** The five checkboxes "Opciones de pago aceptadas". */
  datatype Accepted = Accepted(clpCasaDeCambio: bool, usd: bool, ars: bool, debito: bool, credito: bool)

  function Enabled(c: Channel, accepted: Accepted): bool
  {
    match c
    case ClpCasaDeCambio => accepted.clpCasaDeCambio
    case Usd => accepted.usd
    case Ars => accepted.ars
    case Debito => accepted.debito
    case Credito => accepted.credito
  }

  /** Every exchange rate app.py knows of. The first five are typed in by the user. */
  datatype RateId =
    | ClpUsdComercio | ClpArsComercio
    | UsdArsCasaDeCambio | ClpUsdCasaDeCambio | ClpArsCasaDeCambio
    | UsdArsOficial | UsdArsTarjeta | ClpUsdOficial

  /**
    The rates of one run. A number input always holds a number (zero when
    left untouched); a fetched rate is `None` when its fetch failed.
   */
  datatype Rates = Rates(
    clpUsdComercio: real, clpArsComercio: real,
    usdArsCasaDeCambio: real, clpUsdCasaDeCambio: real, clpArsCasaDeCambio: real,
    usdArsOficial: Option<real>, usdArsTarjeta: Option<real>, clpUsdOficial: Option<real>)

  function Value(rates: Rates, id: RateId): Option<real>
  {
    match id
    case ClpUsdComercio => Some(rates.clpUsdComercio)
    case ClpArsComercio => Some(rates.clpArsComercio)
    case UsdArsCasaDeCambio => Some(rates.usdArsCasaDeCambio)
    case ClpUsdCasaDeCambio => Some(rates.clpUsdCasaDeCambio)
    case ClpArsCasaDeCambio => Some(rates.clpArsCasaDeCambio)
    case UsdArsOficial => rates.usdArsOficial
    case UsdArsTarjeta => rates.usdArsTarjeta
    case ClpUsdOficial => rates.clpUsdOficial
  }

  /** Python truthiness of a rate: neither `None` nor zero. */
  predicate Truthy(rates: Rates, id: RateId)
  {
    Value(rates, id).Some? && Value(rates, id).value != 0.0
  }

  function Rate(rates: Rates, id: RateId): real
    requires Truthy(rates, id)
  {
    Value(rates, id).value
  }

  /**
    How a channel turns a CLP price into ARS: divide by "CLP per ARS", or
    divide by "CLP per USD" and multiply by "ARS per USD".
   */
  datatype Path = OneHop(clpPerArs: RateId) | TwoHop(clpPerUsd: RateId, arsPerUsd: RateId)

  function PathOf(c: Channel): Path
  {
    match c
    case ClpCasaDeCambio => OneHop(ClpArsCasaDeCambio)
    case Usd => TwoHop(ClpUsdComercio, UsdArsOficial)
    case Ars => OneHop(ClpArsComercio)
    case Debito => TwoHop(ClpUsdOficial, UsdArsOficial)
    case Credito => TwoHop(ClpUsdOficial, UsdArsTarjeta)
  }

  /** The rates a path reads, in the order it applies them. */
  function Uses(p: Path): seq<RateId>
  {
    match p
    case OneHop(a) => [a]
    case TwoHop(a, b) => [a, b]
  }

  /** Every rate the path reads is truthy. */
  predicate Resolvable(p: Path, rates: Rates)
  {
    match p
    case OneHop(a) => Truthy(rates, a)
    case TwoHop(a, b) => Truthy(rates, a) && Truthy(rates, b)
  }

  lemma ResolvableIff(p: Path, rates: Rates)
    ensures Resolvable(p, rates) <==> forall id :: id in Uses(p) ==> Truthy(rates, id)
  {
    match p
    case OneHop(a) => assert a in Uses(p);
    case TwoHop(a, b) => assert a in Uses(p) && b in Uses(p);
  }

  /** The unrounded ARS amount a path yields for `price` CLP. */
  function ExactCost(p: Path, price: real, rates: Rates): real
    requires Resolvable(p, rates)
  {
    match p
    case OneHop(a) => price / Rate(rates, a)
    case TwoHop(a, b) => price / Rate(rates, a) * Rate(rates, b)
  }

  /** The rate values a row quotes in its "Cotizaciones usadas" column: one per hop. */
  datatype Quote = Single(rate: real) | Pair(first: real, second: real)

  function Quoted(p: Path, rates: Rates): Quote
    requires Resolvable(p, rates)
  {
    match p
    case OneHop(a) => Single(Rate(rates, a))
    case TwoHop(a, b) => Pair(Rate(rates, a), Rate(rates, b))
  }

  /** One row of `opciones_pago`: the option, the rates it quotes, its cost in ARS. */
  datatype Row = Row(channel: Channel, quoted: Quote, cost: real)

  /** A channel is listed when its box is ticked and every rate it reads is truthy. */
  predicate Qualifies(c: Channel, accepted: Accepted, rates: Rates)
  {
    Enabled(c, accepted) && Resolvable(PathOf(c), rates)
  }

  function RowFor(c: Channel, price: real, rates: Rates): Row
    requires Resolvable(PathOf(c), rates)
  {
    Row(c, Quoted(PathOf(c), rates), Round2(ExactCost(PathOf(c), price, rates)))
  }

  /** The row a channel contributes to the list: one row if it qualifies, none otherwise. */
  function Part(c: Channel, price: real, accepted: Accepted, rates: Rates): seq<Row>
  {
    if Qualifies(c, accepted, rates) then [RowFor(c, price, rates)] else []
  }

  const Declared: seq<Channel> := [ClpCasaDeCambio, Usd, Ars, Debito, Credito]

  /** One guarded `append`: the channel's row goes at the end when the channel qualifies. */
  function Step(rows: seq<Row>, c: Channel, price: real, accepted: Accepted, rates: Rates): seq<Row>
  {
    if Qualifies(c, accepted, rates) then rows + [RowFor(c, price, rates)] else rows
  }

  /** The rows of the qualifying channels of `cs`, in the order of `cs`. */
  function Select(cs: seq<Channel>, price: real, accepted: Accepted, rates: Rates): seq<Row>
  {
    if cs == [] then []
    else Step(Select(cs[..|cs| - 1], price, accepted, rates), cs[|cs| - 1], price, accepted, rates)
  }

  /** The option list app.py builds, stated declaratively. */
  function Options(price: real, accepted: Accepted, rates: Rates): seq<Row>
  {
    Select(Declared, price, accepted, rates)
  }

  lemma SelectSnoc(cs: seq<Channel>, c: Channel, price: real, accepted: Accepted, rates: Rates)
    ensures Select(cs + [c], price, accepted, rates) == Step(Select(cs, price, accepted, rates), c, price, accepted, rates)
  {
    assert (cs + [c])[..|cs|] == cs;
  }

  /** The last channel's part comes last. */
  lemma SelectSplit(cs: seq<Channel>, price: real, accepted: Accepted, rates: Rates)
    requires cs != []
    ensures Select(cs, price, accepted, rates)
         == Select(cs[..|cs| - 1], price, accepted, rates) + Part(cs[|cs| - 1], price, accepted, rates)
  {
    if !Qualifies(cs[|cs| - 1], accepted, rates) {
      assert Select(cs[..|cs| - 1], price, accepted, rates) + [] == Select(cs[..|cs| - 1], price, accepted, rates);
    }
  }

  /**
    The block that fills `opciones_pago`: starting from the empty list, five
    guarded appends run in declaration order, each guard testing the checkbox
    and the truthiness of the rates the option divides and multiplies by.
  */
  method BuildOptions(price: real, accepted: Accepted, rates: Rates) returns (rows: seq<Row>)
    ensures rows == Options(price, accepted, rates)
  {
    rows := [];
    rows := AddClpCasaDeCambio(rows, price, accepted, rates);
    rows := AddUsd(rows, price, accepted, rates);
    rows := AddArs(rows, price, accepted, rates);
    rows := AddDebito(rows, price, accepted, rates);
    rows := AddCredito(rows, price, accepted, rates);
    OptionsUnfold(price, accepted, rates);
  }

  /** Pay in CLP after changing to ARS at a casa de cambio: one division. */
  method AddClpCasaDeCambio(rows: seq<Row>, price: real, accepted: Accepted, rates: Rates)
    returns (rows': seq<Row>)
    ensures rows' == Step(rows, ClpCasaDeCambio, price, accepted, rates)
  {
    rows' := rows;
    if accepted.clpCasaDeCambio && Truthy(rates, ClpArsCasaDeCambio) {
      var arsTotal := price / Rate(rates, ClpArsCasaDeCambio);
      rows' := rows' + [Row(ClpCasaDeCambio, Single(Rate(rates, ClpArsCasaDeCambio)), Round2(arsTotal))];
    }
  }

  /** Pay in USD: CLP to USD at the merchant's rate, then USD to ARS at the official rate. */
  method AddUsd(rows: seq<Row>, price: real, accepted: Accepted, rates: Rates)
    returns (rows': seq<Row>)
    ensures rows' == Step(rows, Usd, price, accepted, rates)
  {
    rows' := rows;
    if accepted.usd && Truthy(rates, ClpUsdComercio) && Truthy(rates, UsdArsOficial) {
      var usd := price / Rate(rates, ClpUsdComercio);
      var arsTotal := usd * Rate(rates, UsdArsOficial);
      rows' := rows' + [Row(Usd, Pair(Rate(rates, ClpUsdComercio), Rate(rates, UsdArsOficial)), Round2(arsTotal))];
      assert ExactCost(PathOf(Usd), price, rates) == arsTotal;
    }
  }

  /** Pay in ARS at the merchant's CLP-per-ARS rate: one division. */
  method AddArs(rows: seq<Row>, price: real, accepted: Accepted, rates: Rates)
    returns (rows': seq<Row>)
    ensures rows' == Step(rows, Ars, price, accepted, rates)
  {
    rows' := rows;
    if accepted.ars && Truthy(rates, ClpArsComercio) {
      var arsTotal := price / Rate(rates, ClpArsComercio);
      rows' := rows' + [Row(Ars, Single(Rate(rates, ClpArsComercio)), Round2(arsTotal))];
    }
  }

  /** Pay by debit card: CLP to USD at the Chilean rate, then USD to ARS at the official rate. */
  method AddDebito(rows: seq<Row>, price: real, accepted: Accepted, rates: Rates)
    returns (rows': seq<Row>)
    ensures rows' == Step(rows, Debito, price, accepted, rates)
  {
    rows' := rows;
    if accepted.debito && Truthy(rates, ClpUsdOficial) && Truthy(rates, UsdArsOficial) {
      var usd := price / Rate(rates, ClpUsdOficial);
      var arsTotal := usd * Rate(rates, UsdArsOficial);
      rows' := rows' + [Row(Debito, Pair(Rate(rates, ClpUsdOficial), Rate(rates, UsdArsOficial)), Round2(arsTotal))];
      assert ExactCost(PathOf(Debito), price, rates) == arsTotal;
    }
  }

  /** Pay by credit card: CLP to USD at the Chilean rate, then USD to ARS at the card rate. */
  method AddCredito(rows: seq<Row>, price: real, accepted: Accepted, rates: Rates)
    returns (rows': seq<Row>)
    ensures rows' == Step(rows, Credito, price, accepted, rates)
  {
    rows' := rows;
    if accepted.credito && Truthy(rates, ClpUsdOficial) && Truthy(rates, UsdArsTarjeta) {
      var usd := price / Rate(rates, ClpUsdOficial);
      var arsTotal := usd * Rate(rates, UsdArsTarjeta);
      rows' := rows' + [Row(Credito, Pair(Rate(rates, ClpUsdOficial), Rate(rates, UsdArsTarjeta)), Round2(arsTotal))];
      assert ExactCost(PathOf(Credito), price, rates) == arsTotal;
    }
  }

  /** The declared order spelled out: five guarded appends, in turn. */
  lemma OptionsUnfold(price: real, accepted: Accepted, rates: Rates)
    ensures Options(price, accepted, rates)
         == Step(Step(Step(Step(Step([], ClpCasaDeCambio, price, accepted, rates), Usd, price, accepted, rates),
                 Ars, price, accepted, rates), Debito, price, accepted, rates), Credito, price, accepted, rates)
  {
    SelectFive(ClpCasaDeCambio, Usd, Ars, Debito, Credito, price, accepted, rates);
  }

  /** Kept generic in the channels so that no cost formula is unfolded. */
  lemma SelectFive(c0: Channel, c1: Channel, c2: Channel, c3: Channel, c4: Channel,
                   price: real, accepted: Accepted, rates: Rates)
    ensures Select([c0, c1, c2, c3, c4], price, accepted, rates)
         == Step(Step(Step(Step(Step([], c0, price, accepted, rates), c1, price, accepted, rates),
                 c2, price, accepted, rates), c3, price, accepted, rates), c4, price, accepted, rates)
  {
    assert Select([c0], price, accepted, rates) == Step([], c0, price, accepted, rates) by {
      SelectSnoc([], c0, price, accepted, rates);
      assert [] + [c0] == [c0];
    }
    assert Select([c0, c1], price, accepted, rates)
        == Step(Select([c0], price, accepted, rates), c1, price, accepted, rates) by {
      SelectSnoc([c0], c1, price, accepted, rates);
      assert [c0] + [c1] == [c0, c1];
    }
    assert Select([c0, c1, c2], price, accepted, rates)
        == Step(Select([c0, c1], price, accepted, rates), c2, price, accepted, rates) by {
      SelectSnoc([c0, c1], c2, price, accepted, rates);
      assert [c0, c1] + [c2] == [c0, c1, c2];
    }
    assert Select([c0, c1, c2, c3], price, accepted, rates)
        == Step(Select([c0, c1, c2], price, accepted, rates), c3, price, accepted, rates) by {
      SelectSnoc([c0, c1, c2], c3, price, accepted, rates);
      assert [c0, c1, c2] + [c3] == [c0, c1, c2, c3];
    }
    SelectSnoc([c0, c1, c2, c3], c4, price, accepted, rates);
    assert [c0, c1, c2, c3] + [c4] == [c0, c1, c2, c3, c4];
  }

  // ---------------------------------------------------------------------
  // Which rows appear, and with what cost
  // ---------------------------------------------------------------------

  /** Every selected row comes from a qualifying channel of `cs` and is that channel's row. */
  lemma {:induction false} SelectSound(cs: seq<Channel>, price: real, accepted: Accepted, rates: Rates, i: nat)
    requires i < |Select(cs, price, accepted, rates)|
    ensures var r := Select(cs, price, accepted, rates)[i];
      r.channel in cs && Qualifies(r.channel, accepted, rates) && r == RowFor(r.channel, price, rates)
  {
    var init := cs[..|cs| - 1];
    var front: seq<Row> := Select(init, price, accepted, rates);
    var last: seq<Row> := Part(cs[|cs| - 1], price, accepted, rates);
    SelectSplit(cs, price, accepted, rates);
    if i < |front| {
      SelectSound(init, price, accepted, rates, i);
      assert (front + last)[i] == front[i];
      assert front[i].channel in init;
    } else {
      assert (front + last)[i] == last[0];
    }
  }

  /** Every qualifying channel of `cs` has a row. */
  lemma {:induction false} SelectComplete(cs: seq<Channel>, price: real, accepted: Accepted, rates: Rates, c: Channel)
    requires c in cs && Qualifies(c, accepted, rates)
    ensures exists i :: 0 <= i < |Select(cs, price, accepted, rates)| && Select(cs, price, accepted, rates)[i].channel == c
  {
    var init := cs[..|cs| - 1];
    var front: seq<Row> := Select(init, price, accepted, rates);
    var last: seq<Row> := Part(cs[|cs| - 1], price, accepted, rates);
    SelectSplit(cs, price, accepted, rates);
    if c == cs[|cs| - 1] {
      assert (front + last)[|front|].channel == c;
    } else {
      assert c in init by {
        var k :| 0 <= k < |cs| && cs[k] == c;
        assert init[k] == c;
      }
      SelectComplete(init, price, accepted, rates, c);
      var i :| 0 <= i < |front| && front[i].channel == c;
      assert (front + last)[i].channel == c;
    }
  }

  /**
    A channel is listed exactly when its box is ticked and every rate its
    formula uses is present and non-zero.
   */
  lemma OptionListedIff(price: real, accepted: Accepted, rates: Rates, c: Channel)
    ensures (exists i :: 0 <= i < |Options(price, accepted, rates)| && Options(price, accepted, rates)[i].channel == c)
        <==> (Enabled(c, accepted) && forall id :: id in Uses(PathOf(c)) ==> Truthy(rates, id))
  {
    ResolvableIff(PathOf(c), rates);
    if Qualifies(c, accepted, rates) {
      assert c in Declared by { assert c == Declared[Rank(c)]; }
      SelectComplete(Declared, price, accepted, rates, c);
    }
    var rows := Options(price, accepted, rates);
    assert rows == Select(Declared, price, accepted, rates);
    forall i | 0 <= i < |rows| && rows[i].channel == c
      ensures Qualifies(c, accepted, rates)
    {
      SelectSound(Declared, price, accepted, rates, i);
    }
  }

  /** The cost formulas of the five channels, written out in the rates' own names. */
  lemma OptionCost(price: real, accepted: Accepted, rates: Rates, i: nat)
    requires i < |Options(price, accepted, rates)|
    ensures var r := Options(price, accepted, rates)[i];
      match r.channel
      case ClpCasaDeCambio =>
        rates.clpArsCasaDeCambio != 0.0
        && r.cost == Round2(price / rates.clpArsCasaDeCambio) && r.quoted == Single(rates.clpArsCasaDeCambio)
      case Usd =>
        rates.clpUsdComercio != 0.0 && rates.usdArsOficial.Some?
        && r.cost == Round2(price / rates.clpUsdComercio * rates.usdArsOficial.value)
        && r.quoted == Pair(rates.clpUsdComercio, rates.usdArsOficial.value)
      case Ars =>
        rates.clpArsComercio != 0.0
        && r.cost == Round2(price / rates.clpArsComercio) && r.quoted == Single(rates.clpArsComercio)
      case Debito =>
        rates.clpUsdOficial.Some? && rates.clpUsdOficial.value != 0.0 && rates.usdArsOficial.Some?
        && r.cost == Round2(price / rates.clpUsdOficial.value * rates.usdArsOficial.value)
        && r.quoted == Pair(rates.clpUsdOficial.value, rates.usdArsOficial.value)
      case Credito =>
        rates.clpUsdOficial.Some? && rates.clpUsdOficial.value != 0.0 && rates.usdArsTarjeta.Some?
        && r.cost == Round2(price / rates.clpUsdOficial.value * rates.usdArsTarjeta.value)
        && r.quoted == Pair(rates.clpUsdOficial.value, rates.usdArsTarjeta.value)
  {
    SelectSound(Declared, price, accepted, rates, i);
    var r := Options(price, accepted, rates)[i];
    assert r == RowFor(r.channel, price, rates);
    match r.channel
    case ClpCasaDeCambio =>
    case Usd =>
      assert ExactCost(PathOf(Usd), price, rates)
          == price / rates.clpUsdComercio * rates.usdArsOficial.value;
    case Ars =>
    case Debito =>
      assert ExactCost(PathOf(Debito), price, rates)
          == price / rates.clpUsdOficial.value * rates.usdArsOficial.value;
    case Credito =>
      assert ExactCost(PathOf(Credito), price, rates)
          == price / rates.clpUsdOficial.value * rates.usdArsTarjeta.value;
  }

  /** Every listed cost is the exact conversion, rounded to within half a hundredth. */
  lemma OptionCostNearExact(price: real, accepted: Accepted, rates: Rates, i: nat)
    requires i < |Options(price, accepted, rates)|
    ensures var r := Options(price, accepted, rates)[i];
      Resolvable(PathOf(r.channel), rates) &&
      IsHundredths(r.cost) &&
      -0.005 <= r.cost - ExactCost(PathOf(r.channel), price, rates) <= 0.005
  {
    SelectSound(Declared, price, accepted, rates, i);
    var r := Options(price, accepted, rates)[i];
    Round2Near(ExactCost(PathOf(r.channel), price, rates));
  }

  // ---------------------------------------------------------------------
  // Shape of the list before sorting
  // ---------------------------------------------------------------------

  predicate InDeclaredOrder(rows: seq<Row>)
  {
    forall i, j :: 0 <= i < j < |rows| ==> Rank(rows[i].channel) < Rank(rows[j].channel)
  }

  predicate RankedChannels(cs: seq<Channel>)
  {
    forall i, j :: 0 <= i < j < |cs| ==> Rank(cs[i]) < Rank(cs[j])
  }

  lemma {:induction false} SelectOrdered(cs: seq<Channel>, price: real, accepted: Accepted, rates: Rates)
    requires RankedChannels(cs)
    ensures InDeclaredOrder(Select(cs, price, accepted, rates))
  {
    if cs != [] {
      var init := cs[..|cs| - 1];
      var c := cs[|cs| - 1];
      assert RankedChannels(init) by {
        forall i, j | 0 <= i < j < |init| ensures Rank(init[i]) < Rank(init[j]) {
          assert init[i] == cs[i] && init[j] == cs[j];
        }
      }
      SelectOrdered(init, price, accepted, rates);
      var front: seq<Row> := Select(init, price, accepted, rates);
      var last: seq<Row> := Part(c, price, accepted, rates);
      SelectSplit(cs, price, accepted, rates);
      forall j | 0 <= j < |front| ensures Rank(front[j].channel) < Rank(c) {
        SelectSound(init, price, accepted, rates, j);
        var k :| 0 <= k < |init| && init[k] == front[j].channel;
        assert cs[k] == front[j].channel;
      }
      forall i, j | 0 <= i < j < |front + last|
        ensures Rank((front + last)[i].channel) < Rank((front + last)[j].channel)
      {
        assert (front + last)[i] == front[i];
        if j < |front| {
          assert (front + last)[j] == front[j];
        } else {
          assert (front + last)[j] == last[0];
        }
      }
    }
  }

  /** Ranks strictly rise, so the last rank bounds the length. */
  lemma {:induction false} OrderedLength(rows: seq<Row>)
    requires InDeclaredOrder(rows)
    ensures rows == [] || |rows| <= Rank(rows[|rows| - 1].channel) + 1
  {
    if |rows| > 1 {
      var init := rows[..|rows| - 1];
      assert InDeclaredOrder(init) by {
        forall i, j | 0 <= i < j < |init| ensures Rank(init[i].channel) < Rank(init[j].channel) {
          assert init[i] == rows[i] && init[j] == rows[j];
        }
      }
      OrderedLength(init);
      assert init[|init| - 1] == rows[|rows| - 2];
    }
  }

  /**
    Before sorting, the list names each option at most once and in the
    order CLP, USD, ARS, Débito, Crédito, so it has at most five rows.
   */
  lemma OptionsInDeclaredOrder(price: real, accepted: Accepted, rates: Rates)
    ensures var rows := Options(price, accepted, rates);
      (forall i, j :: 0 <= i < j < |rows| ==> Rank(rows[i].channel) < Rank(rows[j].channel))
      && (forall i, j :: 0 <= i < j < |rows| ==> Label(rows[i].channel) != Label(rows[j].channel))
      && |rows| <= 5
  {
    var rows := Options(price, accepted, rates);
    assert RankedChannels(Declared);
    SelectOrdered(Declared, price, accepted, rates);
    OrderedLength(rows);
    forall i, j | 0 <= i < j < |rows| ensures Label(rows[i].channel) != Label(rows[j].channel) {
      LabelsDistinct(rows[i].channel, rows[j].channel);
    }
  }

  // ---------------------------------------------------------------------
  // Dependence on the rates
  // ---------------------------------------------------------------------

  /** The rows whose formula does not read the given rate. */
  function NotUsing(rows: seq<Row>, id: RateId): seq<Row>
  {
    if rows == [] then []
    else (if id in Uses(PathOf(rows[0].channel)) then [] else [rows[0]]) + NotUsing(rows[1..], id)
  }

  lemma {:induction false} NotUsingAppend(a: seq<Row>, b: seq<Row>, id: RateId)
    ensures NotUsing(a + b, id) == NotUsing(a, id) + NotUsing(b, id)
  {
    if a != [] {
      assert (a + b)[1..] == a[1..] + b;
      NotUsingAppend(a[1..], b, id);
    } else {
      assert a + b == b;
    }
  }

  /** Two rate sets that agree everywhere except, perhaps, on `id`. */
  predicate AgreeExcept(rates: Rates, rates': Rates, id: RateId)
  {
    forall j: RateId :: j != id ==> Value(rates, j) == Value(rates', j)
  }

  /** A channel that does not read `id` is blind to a change of `id`. */
  lemma PartUnchangedExcept(c: Channel, price: real, accepted: Accepted, rates: Rates, rates': Rates, id: RateId)
    requires AgreeExcept(rates, rates', id) && id !in Uses(PathOf(c))
    ensures Part(c, price, accepted, rates) == Part(c, price, accepted, rates')
  {
    match PathOf(c)
    case OneHop(a) =>
      assert Value(rates, a) == Value(rates', a);
    case TwoHop(a, b) =>
      assert Value(rates, a) == Value(rates', a) && Value(rates, b) == Value(rates', b);
      if Resolvable(PathOf(c), rates) {
        assert ExactCost(PathOf(c), price, rates) == ExactCost(PathOf(c), price, rates');
        assert Quoted(PathOf(c), rates) == Quoted(PathOf(c), rates');
      }
  }

  lemma {:induction false} SelectDropsUsers(cs: seq<Channel>, price: real, accepted: Accepted,
                                            rates: Rates, rates': Rates, id: RateId)
    requires AgreeExcept(rates, rates', id) && !Truthy(rates', id)
    ensures Select(cs, price, accepted, rates') == NotUsing(Select(cs, price, accepted, rates), id)
  {
    if cs != [] {
      var init := cs[..|cs| - 1];
      var c := cs[|cs| - 1];
      SelectDropsUsers(init, price, accepted, rates, rates', id);
      var front: seq<Row> := Select(init, price, accepted, rates);
      var last: seq<Row> := Part(c, price, accepted, rates);
      SelectSplit(cs, price, accepted, rates);
      NotUsingAppend(front, last, id);
      if id in Uses(PathOf(c)) {
        ResolvableIff(PathOf(c), rates');
        assert Part(c, price, accepted, rates') == [];
        assert NotUsing(last, id) == [];
      } else {
        PartUnchangedExcept(c, price, accepted, rates, rates', id);
        assert NotUsing(last, id) == last;
      }
    }
  }

  /**
    Setting one rate to zero, or losing it, removes exactly the options
    whose formula reads it and leaves every other row, cost included, as
    it was.
   */
  lemma DroppingRateDropsItsUsers(price: real, accepted: Accepted, rates: Rates, rates': Rates, id: RateId)
    requires AgreeExcept(rates, rates', id) && !Truthy(rates', id)
    ensures Options(price, accepted, rates') == NotUsing(Options(price, accepted, rates), id)
  {
    SelectDropsUsers(Declared, price, accepted, rates, rates', id);
  }

  /** A rate that no channel reads can change freely. */
  lemma {:induction false} SelectBlind(cs: seq<Channel>, price: real, accepted: Accepted,
                                       rates: Rates, rates': Rates, id: RateId)
    requires AgreeExcept(rates, rates', id)
    requires forall c: Channel :: id !in Uses(PathOf(c))
    ensures Select(cs, price, accepted, rates) == Select(cs, price, accepted, rates')
  {
    if cs != [] {
      SelectBlind(cs[..|cs| - 1], price, accepted, rates, rates', id);
      PartUnchangedExcept(cs[|cs| - 1], price, accepted, rates, rates', id);
    }
  }

  /** The two casa-de-cambio USD rates the user types in are read by no option. */
  lemma UnreadRatesIgnored(price: real, accepted: Accepted, rates: Rates, usdArs: real, clpUsd: real)
    ensures Options(price, accepted, rates.(usdArsCasaDeCambio := usdArs, clpUsdCasaDeCambio := clpUsd))
         == Options(price, accepted, rates)
  {
    var mid := rates.(usdArsCasaDeCambio := usdArs);
    var rates' := mid.(clpUsdCasaDeCambio := clpUsd);
    SelectBlind(Declared, price, accepted, rates, mid, UsdArsCasaDeCambio);
    SelectBlind(Declared, price, accepted, mid, rates', ClpUsdCasaDeCambio);
  }
}
