/**
 * The parcel catalogue: the record types, the three constant catalogue
 * entries and the unit choice of `formatVND` (src/services/landData.ts).
 * Numbers are JavaScript numbers and are kept as `real` constants; nothing
 * here does arithmetic on them.
 */
module LandData {
  import opened Wrappers

  datatype LatLng = LatLng(lat: real, lng: real)

  /** One comparable sale listed beside a parcel's valuation. */
  datatype Transaction = Transaction(
    address: string,
    date: string,
    area: real,
    price: real,
    distanceM: real,
    pricePerM2: real)

  /** One month of the price chart. */
  datatype TrendPoint = TrendPoint(month: string, price: real)

  datatype LandInfo = LandInfo(
    address: string,
    lotNumber: string,
    area: real,
    shape: seq<LatLng>,
    shapeDescription: string,
    doorOrientation: string,
    landType: string,
    legalStatus: string,
    location: LatLng,
    widthRoad: real,
    maxRooms: real,
    expansionPotential: bool,
    nearbyFacilities: seq<string>,
    isTailExpanded: bool)

  datatype PricingInfo = PricingInfo(
    estimatedPricePerM2: real,
    totalEstimatedPrice: real,
    liquidityDays: real,
    similarPropertiesAvg: real,
    nearbyTransactions: seq<Transaction>,
    priceTrend: seq<TrendPoint>)

  /** A catalogue entry: one parcel and the valuation that belongs to it. */
  datatype LandAndPricing = LandAndPricing(landInfo: LandInfo, pricingInfo: PricingInfo)

  /** The catalogue's addresses are pairwise different, so an entry is identified by its address. */
  ghost predicate DistinctAddresses(lands: seq<LandAndPricing>)
  {
    forall i, j :: 0 <= i < j < |lands| ==> lands[i].landInfo.address != lands[j].landInfo.address
  }

  /** Every parcel outline is a polygon, and every valuation has six months of trend and two comparables. */
  ghost predicate WellShapedEntry(land: LandAndPricing)
  {
    && |land.landInfo.shape| >= 3
    && |land.pricingInfo.priceTrend| == 6
    && |land.pricingInfo.nearbyTransactions| == 2
  }

  /** `mockLands`: the fixed catalogue, in display order. */
  function MockLands(): (lands: seq<LandAndPricing>)
    ensures |lands| == 3
    ensures forall i :: 0 <= i < |lands| ==> WellShapedEntry(lands[i])
    ensures DistinctAddresses(lands)
  {
    [
      LandAndPricing(
        LandInfo(
          "123 Đường Nguyễn Văn Cừ, Quận 5, TP.HCM",
          "234",
          85.5,
          [LatLng(10.758, 106.682), LatLng(10.758, 106.683), LatLng(10.759, 106.683), LatLng(10.759, 106.682)],
          "Hình đa giác (xem bản đồ)",
          "Đông Nam",
          "Đất ở đô thị",
          "Sổ đỏ đầy đủ",
          LatLng(10.758, 106.682),
          8.0,
          6.0,
          true,
          ["Trường tiểu học An Lạc", "Bệnh viện Quận 5", "Chợ An Đông", "Ngân hàng Vietcombank"],
          true),
        PricingInfo(
          95000000.0,
          8120000000.0,
          30.0,
          90000000.0,
          [
            Transaction("119 Nguyễn Văn Cừ", "2024-12-01", 90.0, 8800000000.0, 150.0, 97777778.0),
            Transaction("125 Nguyễn Văn Cừ", "2024-11-10", 100.0, 9700000000.0, 120.0, 97000000.0)
          ],
          [
            TrendPoint("T6/2024", 90000000.0), TrendPoint("T7/2024", 92000000.0),
            TrendPoint("T8/2024", 94000000.0), TrendPoint("T9/2024", 95000000.0),
            TrendPoint("T10/2024", 96000000.0), TrendPoint("T11/2024", 95000000.0)
          ])),
      LandAndPricing(
        LandInfo(
          "25 Quang Trung, Hà Đông, Hà Nội",
          "502",
          120.0,
          [LatLng(20.9730, 105.7800), LatLng(20.9730, 105.7807), LatLng(20.9737, 105.7807), LatLng(20.9737, 105.7800)],
          "Hình vuông",
          "Tây Nam",
          "Đất thương mại",
          "Sổ đỏ đầy đủ",
          LatLng(20.97335, 105.78035),
          12.0,
          7.0,
          false,
          ["Siêu thị Metro Hà Đông (0.7km)", "Trường Đại học Kiến Trúc (1.5km)", "Bến xe Yên Nghĩa (2.0km)"],
          false),
        PricingInfo(
          80000000.0,
          9600000000.0,
          70.0,
          78000000.0,
          [
            Transaction("27 Quang Trung", "2024-08-10", 110.0, 8800000000.0, 50.0, 80000000.0),
            Transaction("23 Quang Trung", "2024-07-25", 130.0, 10400000000.0, 70.0, 80000000.0)
          ],
          [
            TrendPoint("T4/2024", 75000000.0), TrendPoint("T5/2024", 77000000.0),
            TrendPoint("T6/2024", 79000000.0), TrendPoint("T7/2024", 80000000.0),
            TrendPoint("T8/2024", 82000000.0), TrendPoint("T9/2024", 80000000.0)
          ])),
      LandAndPricing(
        LandInfo(
          "8 Hàng Bông, Hoàn Kiếm, Hà Nội",
          "503",
          60.0,
          [LatLng(21.0302, 105.8498), LatLng(21.0302, 105.8502), LatLng(21.0305, 105.8500)],
          "Hình tam giác",
          "Đông Nam",
          "Đất ở đô thị",
          "Sổ đỏ đầy đủ",
          LatLng(21.0303, 105.8500),
          5.0,
          3.0,
          false,
          ["Hồ Hoàn Kiếm (0.3km)", "Nhà hát lớn Hà Nội (1.0km)", "Chợ Đồng Xuân (0.7km)"],
          false),
        PricingInfo(
          120000000.0,
          7200000000.0,
          40.0,
          115000000.0,
          [
            Transaction("10 Hàng Bông", "2024-09-10", 65.0, 7800000000.0, 50.0, 120000000.0),
            Transaction("6 Hàng Bông", "2024-08-20", 55.0, 6300000000.0, 40.0, 114545454.0)
          ],
          [
            TrendPoint("T4/2024", 110000000.0), TrendPoint("T5/2024", 112000000.0),
            TrendPoint("T6/2024", 115000000.0), TrendPoint("T7/2024", 118000000.0),
            TrendPoint("T8/2024", 120000000.0), TrendPoint("T9/2024", 120000000.0)
          ]))
    ]
  }

  /**
   * `lands.findIndex(l => l === x)`: the first position holding `x`, or -1.
   * The source compares object identity; entries are values here, and since
   * catalogue entries are pairwise different (their addresses are) the first
   * equal entry is the one that was looked up (see FindIndexOfEntry).
   */
  function FindIndex(lands: seq<LandAndPricing>, x: LandAndPricing): (r: int)
    ensures -1 <= r < |lands|
    ensures r == -1 <==> x !in lands
    ensures 0 <= r ==> lands[r] == x && forall j :: 0 <= j < r ==> lands[j] != x
  {
    if lands == [] then -1
    else if lands[0] == x then 0
    else
      var r := FindIndex(lands[1..], x);
      if r == -1 then -1 else r + 1
  }

  /** In a catalogue of pairwise different addresses, looking up the `k`-th entry finds position `k`. */
  lemma FindIndexOfEntry(lands: seq<LandAndPricing>, k: nat)
    requires DistinctAddresses(lands)
    requires k < |lands|
    ensures FindIndex(lands, lands[k]) == k
  {
    var r := FindIndex(lands, lands[k]);
    assert r <= k;
  }

  /** The unit `formatVND` writes an amount in: tỷ (10^9), triệu (10^6) or plain đồng. */
  datatype PriceUnit = Ty | Trieu | Dong

  /** The range of amounts each unit is meant for; the three ranges partition the numbers. */
  ghost predicate InUnitRange(u: PriceUnit, amount: real)
  {
    match u
    case Ty => 1000000000.0 <= amount
    case Trieu => 1000000.0 <= amount < 1000000000.0
    case Dong => amount < 1000000.0
  }

  /** The branch `formatVND` takes for `amount`. */
  function UnitOf(amount: real): (u: PriceUnit)
    ensures forall v :: InUnitRange(v, amount) <==> v == u
  {
    if amount >= 1000000000.0 then Ty
    else if amount >= 1000000.0 then Trieu
    else Dong
  }

  function Suffix(u: PriceUnit): string
  {
    match u
    case Ty => " tỷ VNĐ"
    case Trieu => " triệu VNĐ"
    case Dong => " VNĐ"
  }

  predicate EndsWith(s: string, suffix: string)
  {
    |suffix| <= |s| && s[|s| - |suffix|..] == suffix
  }

  /** Reads the unit back from a formatted amount; the longer suffixes are tried first. */
  function ParseUnit(s: string): Option<PriceUnit>
  {
    if EndsWith(s, Suffix(Ty)) then Some(Ty)
    else if EndsWith(s, Suffix(Trieu)) then Some(Trieu)
    else if EndsWith(s, Suffix(Dong)) then Some(Dong)
    else None
  }

  /**
   * `formatVND(amount)`. The number text (`toFixed` of the scaled amount, or
   * `toLocaleString("vi-VN")`) is host formatting and is passed in as
   * `digits`; neither formatter writes a space, and that is all the model
   * needs to know of it. The unit is then recoverable from the text.
   */
  function FormatVND(amount: real, digits: string): (s: string)
    requires ' ' !in digits
    ensures ParseUnit(s) == Some(UnitOf(amount))
  {
    ParseUnitOfSuffix(digits, UnitOf(amount));
    digits + Suffix(UnitOf(amount))
  }

  /** A space-free number text followed by a unit's suffix parses back to that unit. */
  lemma ParseUnitOfSuffix(digits: string, u: PriceUnit)
    requires ' ' !in digits
    ensures ParseUnit(digits + Suffix(u)) == Some(u)
  {
    var s := digits + Suffix(u);
    var n := |s|;
    assert s[|digits|..] == Suffix(u);
    match u
    case Ty =>
    case Trieu =>
      assert s[n - 7] == 'i';
    case Dong =>
      if n >= 7 {
        assert s[n - 7] == digits[|digits| - 3];
      }
      if n >= 10 {
        assert s[n - 10] == digits[|digits| - 6];
      }
  }
}
