/**
 * The admin product card: the stock status text and colour, the low-stock
 * badge and the stock bar.
 */
module ProductCard {
  import opened Wrappers

  const RedBadge := "bg-red-500/20 text-red-400 border-red-500/30"
  const YellowBadge := "bg-yellow-500/20 text-yellow-400 border-yellow-500/30"
  const GreenBadge := "bg-green-500/20 text-green-400 border-green-500/30"

  /** `getStatusColor`; the `status` argument plays no part. */
  function StatusColor(status: string, stock: int): (c: string)
    ensures c == RedBadge <==> stock == 0
    ensures c == YellowBadge <==> stock != 0 && stock < 10
    ensures c == GreenBadge <==> stock >= 10
  {
    if stock == 0 then RedBadge
    else if stock < 10 then YellowBadge
    else GreenBadge
  }

  /** `getStatusText`; the `status` argument plays no part. */
  function StatusText(status: string, stock: int): (t: string)
    ensures t == "Out of Stock" <==> stock == 0
    ensures t == "Low Stock" <==> stock != 0 && stock < 10
    ensures t == "In Stock" <==> stock >= 10
  {
    if stock == 0 then "Out of Stock"
    else if stock < 10 then "Low Stock"
    else "In Stock"
  }

  /** The colour that goes with each status text. */
  function ColorForText(t: string): string {
    if t == "Out of Stock" then RedBadge
    else if t == "Low Stock" then YellowBadge
    else GreenBadge
  }

  /** The colour and the text always tell the same story, whatever the status string. */
  lemma ColorAgreesWithText(status: string, stock: int)
    ensures StatusColor(status, stock) == ColorForText(StatusText(status, stock))
  {
  }

  /** Classification depends on the stock alone. */
  lemma StatusIgnoresStatusString(s1: string, s2: string, stock: int)
    ensures StatusText(s1, stock) == StatusText(s2, stock)
    ensures StatusColor(s1, stock) == StatusColor(s2, stock)
  {
  }

  /** The warning badge over the image: shown below ten units, with its label. */
  function BadgeLabel(stock: int): (b: Option<string>)
    ensures b.Some? <==> stock < 10
    ensures b.Some? ==> (b.value == "Out of Stock" <==> stock == 0)
  {
    if stock < 10 then Some(if stock == 0 then "Out of Stock" else "Low Stock") else None
  }

  /** Whenever the badge shows, it reads the same as the status text. */
  lemma BadgeMatchesStatusText(status: string, stock: int)
    requires BadgeLabel(stock).Some?
    ensures BadgeLabel(stock).value == StatusText(status, stock)
  {
  }

  /** The colour of the stock bar, on the same thresholds. */
  function BarColor(stock: int): string {
    if stock == 0 then "bg-red-500" else if stock < 10 then "bg-yellow-500" else "bg-green-500"
  }

  /** The bar is red, yellow or green exactly when the badge colour is. */
  lemma BarColorAgreesWithStatus(status: string, stock: int)
    ensures BarColor(stock) == "bg-red-500" <==> StatusColor(status, stock) == RedBadge
    ensures BarColor(stock) == "bg-yellow-500" <==> StatusColor(status, stock) == YellowBadge
    ensures BarColor(stock) == "bg-green-500" <==> StatusColor(status, stock) == GreenBadge
  {
  }

  /** The bar's width in percent: `Math.min(stock / 100 * 100, 100)`. */
  function StockBarWidth(stock: int): (w: real)
    ensures w <= 100.0
    ensures w == 100.0 <==> stock >= 100
    ensures stock < 100 ==> w == stock as real
    ensures stock >= 0 ==> w >= 0.0
  {
    var exact := (stock as real / 100.0) * 100.0;
    if exact < 100.0 then exact else 100.0
  }

  /** More stock never draws a shorter bar. */
  lemma StockBarMonotone(s1: int, s2: int)
    requires s1 <= s2
    ensures StockBarWidth(s1) <= StockBarWidth(s2)
  {
  }
}
