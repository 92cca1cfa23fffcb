/** The provider adapters of the two-lane spot function
    (functions/api/spot.js): each turns one HTTP exchange into a tagged
    quote or an error. The exchange itself (status, decoded body) is an
    input; `Number(...)` on a decoded field is already an `Option<real>`,
    and `Number(...)` on CSV text is the `toNumber` parameter. */
module TwoLaneAdapters {
  import opened Basics

  /** The lane a provider feeds: retail reference or market headline. */
  datatype Kind = Retail | Market

  function KindName(k: Kind): (name: string)
    ensures name == "retail" || name == "market"
  {
    match k
    case Retail => "retail"
    case Market => "market"
  }

  /** What a provider resolves to: `{ name, kind, price }`. */
  datatype Quote = Quote(name: string, kind: Kind, price: real)

  const TooManyRequests: nat := 429

  // ---------------------------------------------------------------------
  // GoldPrice.org (retail)
  // ---------------------------------------------------------------------

  /** `json.items[0]` with `Number(xauPrice)` and `Number(xagPrice)`. */
  datatype GoldPriceItem = GoldPriceItem(xauPrice: Option<real>, xagPrice: Option<real>)

  /** `FetchFromGoldPriceOrg_Retail` after the fetch; `items` is `None`
      when the body is not an object with an `items` array. */
  function FromGoldPriceOrg(metal: Metal, status: nat, items: Option<seq<GoldPriceItem>>): (r: Result<Quote, string>)
    ensures !IsOk(status) ==> r == Failure("GoldPrice failed HTTP " + NatToString(status))
    ensures IsOk(status) && (items.None? || items.value == []) ==> r == Failure("GoldPrice invalid format")
    ensures r.Success? <==>
      IsOk(status) && items.Some? && items.value != []
      && var p := if metal == XAU then items.value[0].xauPrice else items.value[0].xagPrice;
         p.Some? && p.value > 0.0
    ensures r.Success? ==> r.value.name == "GoldPrice" && r.value.kind == Retail && r.value.price > 0.0
  {
    if !IsOk(status) then Failure("GoldPrice failed HTTP " + NatToString(status))
    else if items.None? || items.value == [] then Failure("GoldPrice invalid format")
    else
      var data := items.value[0];
      var price := match metal case XAU => data.xauPrice case XAG => data.xagPrice;
      if price.None? || price.value <= 0.0 then Failure("GoldPrice returned invalid price")
      else Success(Quote("GoldPrice", Retail, price.value))
  }

  // ---------------------------------------------------------------------
  // Stooq (market)
  // ---------------------------------------------------------------------

  /** `xauusd` / `xagusd`. */
  function StooqSymbol(m: Metal): (symbol: string)
    ensures symbol == ToLower(Code(m)) + "usd"
  {
    match m
    case XAU => "xauusd"
    case XAG => "xagusd"
  }

  /** A line ended by `\r\n` loses its `\r`. */
  function StripCR(line: string): (r: string)
    ensures r == line || (line == r + ['\r'])
  {
    if line != [] && line[|line| - 1] == '\r' then line[..|line| - 1] else line
  }

  /** `s.split(/\r?\n/)`: split at each newline, dropping one carriage
      return right before it; the last piece is not followed by a newline
      and keeps its characters. */
  function SplitLines(s: string): (lines: seq<string>)
    ensures |lines| == |Split(s, '\n')|
    ensures forall i :: 0 <= i < |lines| ==> '\n' !in lines[i]
    ensures forall i :: 0 <= i < |lines| - 1 ==> lines[i] == StripCR(Split(s, '\n')[i])
    ensures lines[|lines| - 1] == Split(s, '\n')[|lines| - 1]
  {
    var parts := Split(s, '\n');
    seq(|parts|, i requires 0 <= i < |parts| => if i < |parts| - 1 then StripCR(parts[i]) else parts[i])
  }

  /** The CSV part of `FetchFromStooq_Market`: trim, split into lines, find
      the "Close" column in the header and read that field of the first
      data row. A row too short for the column reads as `undefined`, whose
      `Number` is NaN. */
  function StooqClose(text: string, toNumber: string -> Option<real>): (r: Result<real, string>)
    ensures var lines := SplitLines(Trim(text));
      |lines| < 2 ==> r == Failure("Stooq CSV invalid (not enough lines)")
    ensures var lines := SplitLines(Trim(text));
      |lines| >= 2 && "Close" !in Split(lines[0], ',') ==> r == Failure("Stooq CSV missing Close column")
    ensures r.Success? <==>
      var lines := SplitLines(Trim(text));
      |lines| >= 2
      && var k, row := IndexOf(Split(lines[0], ','), "Close"), Split(lines[1], ',');
         0 <= k < |row| && toNumber(row[k]).Some? && toNumber(row[k]).value > 0.0
    ensures r.Success? ==>
      var lines := SplitLines(Trim(text));
      |lines| >= 2
      && var k := IndexOf(Split(lines[0], ','), "Close");
         0 <= k < |Split(lines[1], ',')| && toNumber(Split(lines[1], ',')[k]) == Some(r.value) && r.value > 0.0
    ensures var lines := SplitLines(Trim(text));
      |lines| >= 2 && "Close" in Split(lines[0], ',') && r.Failure? ==>
      r == Failure("Stooq returned invalid Close price")
  {
    var lines := SplitLines(Trim(text));
    if |lines| < 2 then Failure("Stooq CSV invalid (not enough lines)")
    else
      var header := Split(lines[0], ',');
      var dataRow := Split(lines[1], ',');
      var closeIndex := IndexOf(header, "Close");
      if closeIndex < 0 then Failure("Stooq CSV missing Close column")
      else
        var close := if closeIndex < |dataRow| then toNumber(dataRow[closeIndex]) else None;
        if close.None? || close.value <= 0.0 then Failure("Stooq returned invalid Close price")
        else Success(close.value)
  }

  /** `FetchFromStooq_Market` after the fetch of the symbol's CSV. */
  function FromStooq(status: nat, text: string, toNumber: string -> Option<real>): (r: Result<Quote, string>)
    ensures !IsOk(status) ==> r == Failure("Stooq failed HTTP " + NatToString(status))
    ensures r.Success? <==> IsOk(status) && StooqClose(text, toNumber).Success?
    ensures r.Success? ==> r.value == Quote("Stooq", Market, StooqClose(text, toNumber).value)
  {
    if !IsOk(status) then Failure("Stooq failed HTTP " + NatToString(status))
    else
      match StooqClose(text, toNumber)
      case Failure(e) => Failure(e)
      case Success(p) => Success(Quote("Stooq", Market, p))
  }

  /** Comma-free fields without line breaks, joined with ',', make lines
      without line breaks that split back into those fields. */
  lemma FieldLines(header: seq<string>, row: seq<string>)
    requires |header| >= 1 && |row| >= 1
    requires forall i :: 0 <= i < |header| ==> ',' !in header[i] && '\n' !in header[i] && '\r' !in header[i]
    requires forall i :: 0 <= i < |row| ==> ',' !in row[i] && '\n' !in row[i] && '\r' !in row[i]
    ensures var a, b := Join(header, ','), Join(row, ',');
      '\n' !in a && '\n' !in b && '\r' !in a && Split(a, ',') == header && Split(b, ',') == row
  {
    JoinNoChar(header, ',', '\n');
    JoinNoChar(row, ',', '\n');
    JoinNoChar(header, ',', '\r');
    JoinSplitRoundTrip(header, ',');
    JoinSplitRoundTrip(row, ',');
  }

  /** A header line whose first "Close" field is at k and a data line whose
      field k reads as a positive number yield that number, whether the
      lines end in `\n` or `\r\n` and whatever white space surrounds them.
      `FieldLines` gives these conditions for lines joined from fields. */
  lemma StooqReadsClose(a: string, b: string, k: nat, toNumber: string -> Option<real>, p: real,
                        eol: string, lead: string, trail: string)
    requires '\n' !in a && '\n' !in b && '\r' !in a
    requires a != [] && b != [] && !IsTrimmable(a[0]) && !IsTrimmable(b[|b| - 1])
    requires IndexOf(Split(a, ','), "Close") == k && k < |Split(b, ',')|
    requires toNumber(Split(b, ',')[k]) == Some(p) && p > 0.0
    requires eol == "\n" || eol == "\r\n"
    requires IsBlank(lead) && IsBlank(trail)
    ensures StooqClose(lead + a + eol + b + trail, toNumber) == Success(p)
  {
    PaddedTwoLines(a, b, eol, lead, trail);
    StooqCloseOfLines(lead + a + eol + b + trail, a, b, toNumber, k, p);
  }

  /** Two lines, joined by `\n` or `\r\n` and surrounded by white space,
      trim and split back into those lines. */
  lemma PaddedTwoLines(a: string, b: string, eol: string, lead: string, trail: string)
    requires '\n' !in a && '\n' !in b && '\r' !in a
    requires a != [] && b != [] && !IsTrimmable(a[0]) && !IsTrimmable(b[|b| - 1])
    requires IsBlank(lead) && IsBlank(trail)
    requires eol == "\n" || eol == "\r\n"
    ensures SplitLines(Trim(lead + a + eol + b + trail)) == [a, b]
  {
    var core := a + eol + b;
    assert core[0] == a[0] && core[|core| - 1] == b[|b| - 1];
    TrimAround(lead, core, trail);
    AppendAssoc(lead, a, eol);
    AppendAssoc(lead, a + eol, b);
    if eol == "\r\n" {
      CrLfLines(a, b);
    } else {
      TwoLines(a, b);
    }
  }

  /** A trimmed text of two lines is read by its header and data row. */
  lemma StooqCloseOfLines(text: string, a: string, b: string, toNumber: string -> Option<real>, k: nat, p: real)
    requires SplitLines(Trim(text)) == [a, b]
    requires IndexOf(Split(a, ','), "Close") == k && k < |Split(b, ',')|
    requires toNumber(Split(b, ',')[k]) == Some(p) && p > 0.0
    ensures StooqClose(text, toNumber) == Success(p)
  {
  }

  /** Two lines joined by `\r\n` split back into those lines. */
  lemma CrLfLines(a: string, b: string)
    requires '\n' !in a && '\n' !in b
    ensures SplitLines(a + "\r\n" + b) == [a, b]
  {
    var ar := a + "\r";
    assert '\n' !in ar by {
      assert forall i :: 0 <= i < |a| ==> ar[i] == a[i];
    }
    SplitAtOne(ar, b, '\n');
    assert a + "\r\n" + b == ar + ['\n'] + b;
    assert ar[..|ar| - 1] == a;
  }

  /** Two lines joined by a newline split back into those lines. */
  lemma TwoLines(a: string, b: string)
    requires '\n' !in a && '\n' !in b && '\r' !in a
    ensures SplitLines(a + "\n" + b) == [a, b]
  {
    SplitAtOne(a, b, '\n');
    assert a + "\n" + b == a + ['\n'] + b;
    assert StripCR(a) == a by {
      if a != [] {
        assert a[|a| - 1] in a;
      }
    }
  }

  /** White space around text with nothing to trim at either end is
      exactly what trimming removes. */
  lemma TrimAround(lead: string, core: string, trail: string)
    requires IsBlank(lead) && IsBlank(trail)
    requires core != [] && !IsTrimmable(core[0]) && !IsTrimmable(core[|core| - 1])
    ensures Trim(lead + core + trail) == core
  {
    var s := lead + core + trail;
    assert s[|lead|] == core[0];
    assert forall i :: 0 <= i < |lead| ==> s[i] == lead[i];
    assert LeadingSpace(s) == |lead|;
    var t := s[|lead|..];
    assert t == core + trail;
    assert t[|core| - 1] == core[|core| - 1];
    assert forall i :: |core| <= i < |t| ==> t[i] == trail[i - |core|];
    assert TrailingSpace(t) == |trail|;
    assert t[..|t| - |trail|] == core;
  }

  /** Joining pieces free of a character `c` (other than the separator)
      gives a string free of `c`. */
  lemma {:induction false} JoinNoChar(parts: seq<string>, sep: char, c: char)
    requires |parts| >= 1 && c != sep
    requires forall i :: 0 <= i < |parts| ==> c !in parts[i]
    ensures c !in Join(parts, sep)
  {
    if |parts| > 1 {
      JoinNoChar(parts[1..], sep, c);
    }
  }

  /** Splitting `a + [sep] + b` where neither side holds `sep` gives `[a, b]`. */
  lemma SplitAtOne(a: string, b: string, sep: char)
    requires sep !in a && sep !in b
    ensures Split(a + [sep] + b, sep) == [a, b]
  {
    var t := [sep] + b;
    SplitWithoutSep(b, sep);
    assert t[0] == sep && t[1..] == b;
    assert Split(t, sep) == [[], b];
    SplitAfterPrefix(a, t, sep);
    assert a + [sep] + b == a + t;
    assert a + [] == a;
  }

  // ---------------------------------------------------------------------
  // Metals-API (market, keyed)
  // ---------------------------------------------------------------------

  const MetalsApiRateLimited: string := "Metals-API rate/plan limit hit (HTTP 429)"

  /** `FetchFromMetalsApiLayer_Market` after the fetch. `rates` is `None`
      when the body has no `rates` object; a rate that is missing or not
      finite is `None`. The API quotes ounces per dollar, so the price is
      the inverse of the rate. */
  function FromMetalsApi(metal: Metal, status: nat, rates: Option<map<string, Option<real>>>): (r: Result<Quote, string>)
    ensures status == TooManyRequests ==> r == Failure(MetalsApiRateLimited)
    ensures status != TooManyRequests && !IsOk(status) ==>
      r == Failure("Metals-API failed HTTP " + NatToString(status))
    ensures IsOk(status) && rates.None? ==> r == Failure("Metals-API invalid format")
    ensures r.Success? ==>
      IsOk(status) && rates.Some? && Code(metal) in rates.value
      && var rate := rates.value[Code(metal)];
         rate.Some? && rate.value > 0.0 && r.value.price * rate.value == 1.0
    ensures r.Success? ==> r.value.name == "Metals-API" && r.value.kind == Market && r.value.price > 0.0
  {
    if status == TooManyRequests then Failure(MetalsApiRateLimited)
    else if !IsOk(status) then Failure("Metals-API failed HTTP " + NatToString(status))
    else if rates.None? then Failure("Metals-API invalid format")
    else
      var rate := if Code(metal) in rates.value then rates.value[Code(metal)] else None;
      if rate.None? || rate.value <= 0.0 then Failure("Metals-API returned invalid rate for " + Code(metal))
      else Success(Quote("Metals-API", Market, 1.0 / rate.value))
  }

  /** Every positive rate for the metal is accepted and inverted. */
  lemma MetalsApiInverts(metal: Metal, status: nat, rates: map<string, Option<real>>, rate: real)
    requires IsOk(status) && Code(metal) in rates && rates[Code(metal)] == Some(rate) && rate > 0.0
    ensures FromMetalsApi(metal, status, Some(rates)) == Success(Quote("Metals-API", Market, 1.0 / rate))
  {
  }

  // ---------------------------------------------------------------------
  // GoldAPI.io (market, keyed)
  // ---------------------------------------------------------------------

  const GoldApiIoRateLimited: string := "GoldAPI.io rate/plan limit hit (HTTP 429)"

  /** `FetchFromGoldApiIo_Market` after the fetch; `price` is
      `Number(json.price)`, `None` when the body is null or the number is
      not finite. */
  function FromGoldApiIo(status: nat, price: Option<real>): (r: Result<Quote, string>)
    ensures status == TooManyRequests ==> r == Failure(GoldApiIoRateLimited)
    ensures status != TooManyRequests && !IsOk(status) ==>
      r == Failure("GoldAPI.io failed HTTP " + NatToString(status))
    ensures r.Success? <==> IsOk(status) && price.Some? && price.value > 0.0
    ensures r.Success? ==> r.value == Quote("GoldAPI.io", Market, price.value)
  {
    if status == TooManyRequests then Failure(GoldApiIoRateLimited)
    else if !IsOk(status) then Failure("GoldAPI.io failed HTTP " + NatToString(status))
    else if price.None? || price.value <= 0.0 then Failure("GoldAPI.io returned invalid price")
    else Success(Quote("GoldAPI.io", Market, price.value))
  }

  /** A 429 is reported by its own message, never by the generic HTTP
      failure message. */
  lemma RateLimitIsDistinct(metal: Metal, rates: Option<map<string, Option<real>>>, price: Option<real>)
    ensures FromMetalsApi(metal, TooManyRequests, rates) != Failure("Metals-API failed HTTP " + NatToString(TooManyRequests))
    ensures FromGoldApiIo(TooManyRequests, price) != Failure("GoldAPI.io failed HTTP " + NatToString(TooManyRequests))
  {
    assert MetalsApiRateLimited[11] != ("Metals-API failed HTTP " + NatToString(TooManyRequests))[11];
    assert GoldApiIoRateLimited[11] != ("GoldAPI.io failed HTTP " + NatToString(TooManyRequests))[11];
  }
}
