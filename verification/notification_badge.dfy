/** The unread-count badge (components/notifications/NotificationBadge.tsx). */
module NotificationBadge {
  import opened Lists
  import opened Text

  /** Width, height and font size of the badge, in points. */
  datatype SizeStyles = SizeStyles(width: nat, height: nat, fontSize: nat)

  /** `getSizeStyles`: "small" and "large" have their own sizes; any other
      value, the default "medium" included, gets the medium size. */
  function GetSizeStyles(size: string): (r: SizeStyles)
    ensures r.height == r.width && r.width % 2 == 0
    ensures r.fontSize < r.width
    ensures size == "small" ==> r.width == 16 && r.fontSize == 10
    ensures size == "large" ==> r.width == 24 && r.fontSize == 14
    ensures size != "small" && size != "large" ==> r.width == 20 && r.fontSize == 12
  {
    if size == "small" then SizeStyles(16, 16, 10)
    else if size == "large" then SizeStyles(24, 24, 14)
    else SizeStyles(20, 20, 12)
  }

  /** The sizes grow with the named size, width and font alike. */
  lemma SizesAreOrdered()
    ensures GetSizeStyles("small").width < GetSizeStyles("medium").width < GetSizeStyles("large").width
    ensures GetSizeStyles("small").fontSize < GetSizeStyles("medium").fontSize < GetSizeStyles("large").fontSize
  {
  }

  const Overflow: string := "99+"

  /** `unreadCount > 99 ? '99+' : unreadCount.toString()` */
  function DisplayCount(count: nat): (r: string)
    ensures r == Overflow <==> count > 99
    ensures 1 <= |r| <= 3
    ensures count <= 99 ==> r == DecimalString(count)
    ensures count <= 99 ==> |r| <= 2 && (forall i :: 0 <= i < |r| ==> IsDigit(r[i])) && ParseDecimal(r) == count
  {
    DecimalStringLength(count);
    if count > 99 then Overflow
    else
      ParseDecimalString(count);
      DecimalString(count)
  }

  /** Different counts up to 99 show different labels; all larger counts
      show the same one. */
  lemma DisplayCountInjectiveBelowOverflow(a: nat, b: nat)
    requires DisplayCount(a) == DisplayCount(b)
    ensures a == b || (a > 99 && b > 99)
  {
    if a <= 99 || b <= 99 {
      assert a <= 99 && b <= 99;
      DecimalStringInjective(a, b);
    }
  }

  /** What is drawn: nothing for a zero count, else the caption with its
      size and a corner radius of half the width, which makes the badge a
      circle. */
  datatype Badge = Badge(caption: string, styles: SizeStyles, borderRadius: nat)

  function Render(unreadCount: nat, size: string): (r: Option<Badge>)
    ensures r.None? <==> unreadCount == 0
    ensures r.Some? ==> r.value.caption == DisplayCount(unreadCount) && r.value.styles == GetSizeStyles(size)
    ensures r.Some? ==> 2 * r.value.borderRadius == r.value.styles.width == r.value.styles.height
  {
    if unreadCount == 0 then None
    else
      var styles := GetSizeStyles(size);
      Some(Badge(DisplayCount(unreadCount), styles, styles.width / 2))
  }
}
