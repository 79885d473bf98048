/** The dashboard tile of one greenhouse: the colours chosen from its
    status, temperature and humidity, and its status label. */
module GreenhouseTile {
  import opened Js
  import opened JsText
  import opened Domain

  const Red := "#E74C3C"
  const Blue := "#3498DB"
  const Green := "#2ECC71"

  /** `getStatusColor`, a `switch` on the status string. */
  function StatusColor(status: string): (r: string)
    ensures status == "active" ==> r == "#34495E"
    ensures status == "maintenance" ==> r == "#7F8C8D"
    ensures status == "inactive" ==> r == "#BDC3C7"
    ensures r == "#95A5A6" <==> !IsGreenhouseStatusName(status)
  {
    match status
    case "active" => "#34495E"
    case "maintenance" => "#7F8C8D"
    case "inactive" => "#BDC3C7"
    case _ => "#95A5A6"
  }

  /** `getStatusBackground`, a `switch` on the status string. */
  function StatusBackground(status: string): (r: string)
    ensures status == "active" ==> r == "#E8F6F0"
    ensures status == "maintenance" ==> r == "#FEF9E7"
    ensures status == "inactive" ==> r == "#FDEDEC"
    ensures r == "#F5F6FA" <==> !IsGreenhouseStatusName(status)
  {
    match status
    case "active" => "#E8F6F0"
    case "maintenance" => "#FEF9E7"
    case "inactive" => "#FDEDEC"
    case _ => "#F5F6FA"
  }

  /** Each of the three statuses has a colour and a background of its own,
      and neither `default` is used for a typed status. */
  lemma {:induction false} StatusStylesDistinct(a: GreenhouseStatus, b: GreenhouseStatus)
    ensures StatusColor(a.Name()) == StatusColor(b.Name()) ==> a == b
    ensures StatusBackground(a.Name()) == StatusBackground(b.Name()) ==> a == b
    ensures StatusColor(a.Name()) != "#95A5A6" && StatusBackground(a.Name()) != "#F5F6FA"
  {
  }

  /** `getTemperatureColor`: hot from 25 degrees, cold up to 20. */
  function TemperatureColor(temperature: JsNumber): (r: string)
    ensures r == Red <==> AtLeast(temperature, 25.0)
    ensures r == Blue <==> AtMost(temperature, 20.0)
    ensures r == Green <==> !AtLeast(temperature, 25.0) && !AtMost(temperature, 20.0)
  {
    if AtLeast(temperature, 25.0) then Red
    else if AtMost(temperature, 20.0) then Blue
    else Green
  }

  /** `getHumidityColor`: humid from 75 percent, dry up to 60. */
  function HumidityColor(humidity: JsNumber): (r: string)
    ensures r == Blue <==> AtLeast(humidity, 75.0)
    ensures r == Red <==> AtMost(humidity, 60.0)
    ensures r == Green <==> !AtLeast(humidity, 75.0) && !AtMost(humidity, 60.0)
  {
    if AtLeast(humidity, 75.0) then Blue
    else if AtMost(humidity, 60.0) then Red
    else Green
  }

  /** The band order of a colour, from the low band (0) to the high one (2). */
  function TemperatureBand(color: string): nat {
    if color == Blue then 0 else if color == Green then 1 else 2
  }

  function HumidityBand(color: string): nat {
    if color == Red then 0 else if color == Green then 1 else 2
  }

  /** The temperature bands are ordered: a warmer reading never falls in a
      lower band; below 20 is always blue and from 25 always red. */
  lemma {:induction false} TemperatureBandsOrdered(a: real, b: real)
    requires a <= b
    ensures TemperatureBand(TemperatureColor(Finite(a))) <= TemperatureBand(TemperatureColor(Finite(b)))
    ensures a <= 20.0 ==> TemperatureColor(Finite(a)) == Blue
    ensures 20.0 < a < 25.0 ==> TemperatureColor(Finite(a)) == Green
    ensures 25.0 <= a ==> TemperatureColor(Finite(a)) == Red
  {
  }

  /** The humidity bands are ordered the same way, with red now the low
      band. */
  lemma {:induction false} HumidityBandsOrdered(a: real, b: real)
    requires a <= b
    ensures HumidityBand(HumidityColor(Finite(a))) <= HumidityBand(HumidityColor(Finite(b)))
    ensures a <= 60.0 ==> HumidityColor(Finite(a)) == Red
    ensures 60.0 < a < 75.0 ==> HumidityColor(Finite(a)) == Green
    ensures 75.0 <= a ==> HumidityColor(Finite(a)) == Blue
  {
  }

  /** The readings that are not finite: `NaN` fails both comparisons and is
      shown green, the infinities fall in the outer bands. */
  lemma {:induction false} NonFiniteReadings()
    ensures TemperatureColor(NotANumber) == Green && HumidityColor(NotANumber) == Green
    ensures TemperatureColor(PlusInfinity) == Red && TemperatureColor(MinusInfinity) == Blue
    ensures HumidityColor(PlusInfinity) == Blue && HumidityColor(MinusInfinity) == Red
  {
  }

  /** `status.charAt(0).toUpperCase() + status.slice(1)`. */
  function StatusLabel(status: string): (r: string)
    ensures |r| == |status|
    ensures status != "" ==> r[0] == UpperChar(status[0]) && r[1..] == status[1..]
  {
    Capitalize(status)
  }

  /** The labels of the three statuses. */
  lemma {:induction false} StatusLabels()
    ensures StatusLabel(Active.Name()) == "Active"
    ensures StatusLabel(Maintenance.Name()) == "Maintenance"
    ensures StatusLabel(Inactive.Name()) == "Inactive"
  {
    assert "active"[1..] == "ctive";
    assert "maintenance"[1..] == "aintenance";
    assert "inactive"[1..] == "nactive";
  }
}
