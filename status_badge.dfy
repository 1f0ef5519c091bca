/** The status badge (client/src/components/StatusBadge.tsx): a colour class chosen from the label, case-insensitively. */
module StatusBadge {

  /** `toLowerCase` on one character, for the ASCII letters. */
  function LowerChar(c: char): char {
    if 'A' <= c <= 'Z' then ((c as int) + 32) as char else c
  }

  /** `toUpperCase` on one character, for the ASCII letters. */
  function UpperChar(c: char): char {
    if 'a' <= c <= 'z' then ((c as int) - 32) as char else c
  }

  function ToLower(s: string): string {
    seq(|s|, i requires 0 <= i < |s| => LowerChar(s[i]))
  }

  function ToUpper(s: string): string {
    seq(|s|, i requires 0 <= i < |s| => UpperChar(s[i]))
  }

  const Yellow := "bg-yellow-100 text-yellow-800"
  const Blue := "bg-blue-100 text-blue-800"
  const Green := "bg-green-100 text-green-800"
  const Red := "bg-red-100 text-red-800"
  const Gray := "bg-gray-100 text-gray-800"

  /** The classes every badge carries before its colour. */
  const BaseClass := "inline-block px-3 py-1 rounded-full text-xs font-medium "

  /**
   * getStatusBadgeColor: pending is yellow, in transit blue, delivered green,
   * cancelled red, whatever the case of the label; anything else gray.
   */
  function BadgeColor(status: string): (color: string)
    ensures color in {Yellow, Blue, Green, Red, Gray}
    ensures color == Yellow <==> ToLower(status) == "pending"
    ensures color == Blue <==> ToLower(status) == "in transit"
    ensures color == Green <==> ToLower(status) == "delivered"
    ensures color == Red <==> ToLower(status) == "cancelled"
    ensures color == Gray <==> ToLower(status) !in {"pending", "in transit", "delivered", "cancelled"}
  {
    var key := ToLower(status);
    if key == "pending" then Yellow
    else if key == "in transit" then Blue
    else if key == "delivered" then Green
    else if key == "cancelled" then Red
    else Gray
  }

  lemma LowerOfUpper(s: string)
    ensures ToLower(ToUpper(s)) == ToLower(s)
  {
  }

  /** Writing a label in capitals does not change its colour. */
  lemma BadgeColorIgnoresCase(status: string)
    ensures BadgeColor(ToUpper(status)) == BadgeColor(status)
  {
    LowerOfUpper(status);
  }

  datatype BadgeView = BadgeView(text: string, className: string)

  /** The badge shows the label exactly as given, with the base classes and its colour. */
  function BadgeFor(status: string): (b: BadgeView)
    ensures b.text == status
    ensures b.className == BaseClass + BadgeColor(status)
  {
    BadgeView(status, BaseClass + BadgeColor(status))
  }
}
