/** Sharing a machine (utils/shareUtils.ts): the text shared, the deep link
    into the application and the request handed to the platform's share
    sheet. The decimal renderings of the rating (`toFixed(1)`) and of the
    price are parameters. */
module ShareUtils {
  import opened Lists
  import opened Text
  import opened VendingMachineTypes
  import opened CategoryMarker

  /** The shop front used for "Autre" and for unknown categories. */
  const DefaultEmoji: string := "🏪"

  const EmojiTable: map<string, string> := map[
    "Pain" := "🍞",
    "Pizza" := "🍕",
    "Fleurs" := "💐",
    "Lait" := "🥛",
    "Oeufs" := "🥚",
    "Produits locaux" := "🧺",
    "Autre" := DefaultEmoji]

  /** `getCategoryEmoji`: exact lookup, with the shop front as fallback. */
  function CategoryEmoji(category: string): (r: string)
    ensures category in EmojiTable ==> r == EmojiTable[category]
    ensures category !in KnownCategories ==> r == DefaultEmoji
  {
    LookupOr(EmojiTable, category, DefaultEmoji)
  }

  /** The shared text and the map marker use the same picture for the six
      named categories; they differ for "Autre" and for unknown categories. */
  lemma EmojiMatchesMarkerIcon(category: string)
    ensures category in KnownCategories && category != "Autre" ==> CategoryEmoji(category) == CategoryIcon(category)
    ensures category !in KnownCategories || category == "Autre" ==> CategoryEmoji(category) != CategoryIcon(category)
  {
  }

  /** `c.repeat(n)` for a one-character string and a non-negative count. */
  function RepeatChar(c: char, n: nat): (r: string)
    ensures |r| == n
    ensures forall i :: 0 <= i < |r| ==> r[i] == c
  {
    if n == 0 then [] else RepeatChar(c, n - 1) + [c]
  }

  /** `'⭐'.repeat(Math.floor(rating))`: one star per whole point of the
      rating; `None` for a negative rating, where `repeat` throws. */
  function RatingStars(rating: real): (r: Option<string>)
    ensures r.None? <==> rating < 0.0
    ensures r.Some? ==> |r.value| == rating.Floor && forall i :: 0 <= i < |r.value| ==> r.value[i] == '⭐'
    ensures r.Some? ==> |r.value| as real <= rating < |r.value| as real + 1.0
  {
    if rating.Floor < 0 then None else Some(RepeatChar('⭐', rating.Floor))
  }

  /** The closing line of every generated message. */
  const Signature: string := "🔗 Découvrez ce distributeur sur VendingFinder !"

  /** The heading of a generated message: the category's emoji, the name
      and the address. */
  function Heading(machine: Machine): string
  {
    CategoryEmoji(machine.category) + " " + machine.name + "\n\n📍 " + machine.address + "\n\n"
  }

  /** `generateShareContent`: a non-empty custom message is shared as is;
      otherwise the message lists the machine's name, address, rating,
      review count, price and category. `None` when the message cannot be
      built (a negative rating). */
  function GenerateShareContent(machine: Machine, customMessage: Option<string>,
                                ratingText: string, priceText: string): (r: Option<string>)
    ensures customMessage.Some? && customMessage.value != "" ==> r == customMessage
    ensures (customMessage.None? || customMessage == Some("")) ==> (r.None? <==> machine.rating < 0.0)
    ensures (customMessage.None? || customMessage == Some("")) && r.Some? ==>
              r.value == Heading(machine) + RatingStars(machine.rating).value + " " + ratingText +
                         "/5 (" + DecimalString(machine.reviewCount) + " avis)\n💰 Prix moyen: " + priceText +
                         "€\n🏷️ Catégorie: " + machine.category + "\n\n" + Signature
  {
    if customMessage.Some? && customMessage.value != "" then customMessage
    else
      var stars := RatingStars(machine.rating);
      if stars.None? then None
      else
        Some(Heading(machine) + stars.value + " " + ratingText +
             "/5 (" + DecimalString(machine.reviewCount) + " avis)\n💰 Prix moyen: " + priceText +
             "€\n🏷️ Catégorie: " + machine.category + "\n\n" + Signature)
  }

  /** A generated message starts with the heading and ends with the
      signature. */
  lemma GeneratedMessageFrame(machine: Machine, ratingText: string, priceText: string)
    requires machine.rating >= 0.0
    ensures GenerateShareContent(machine, None, ratingText, priceText).Some?
    ensures var text := GenerateShareContent(machine, None, ratingText, priceText).value;
            |Heading(machine)| + |Signature| <= |text| &&
            text[..|Heading(machine)|] == Heading(machine) &&
            text[|text| - |Signature|..] == Signature
  {
  }

  datatype Platform = Ios | Android | Web | Windows | Macos

  /** `Platform.select({ web, default })` */
  function BaseUrl(platform: Platform): string
  {
    if platform == Web then "https://vendingfinder.app" else "vendingfinder://app"
  }

  /** `generateDeepLink`: the details page of the machine under the
      platform's base URL; the id is the suffix after it. */
  function DeepLink(machineId: string, platform: Platform): (r: string)
    ensures |r| == |BaseUrl(platform)| + 9 + |machineId|
    ensures r[..|BaseUrl(platform)| + 9] == BaseUrl(platform) + "/details/"
    ensures r[|BaseUrl(platform)| + 9..] == machineId
  {
    BaseUrl(platform) + "/details/" + machineId
  }

  /** Different machines get different links on the same platform. */
  lemma DeepLinkInjective(a: string, b: string, platform: Platform)
    requires DeepLink(a, platform) == DeepLink(b, platform)
    ensures a == b
  {
  }

  const DialogTitle: string := "Partager ce distributeur"

  /** The iOS activities removed from the share sheet. */
  const ExcludedIosActivities: seq<string> := [
    "com.apple.UIKit.activity.PostToWeibo",
    "com.apple.UIKit.activity.Print",
    "com.apple.UIKit.activity.AssignToContact",
    "com.apple.UIKit.activity.SaveToCameraRoll",
    "com.apple.UIKit.activity.AddToReadingList",
    "com.apple.UIKit.activity.PostToFlickr",
    "com.apple.UIKit.activity.PostToVimeo",
    "com.apple.UIKit.activity.PostToTencentWeibo"]

  /** The arguments of `Share.share`. */
  datatype ShareRequest = ShareRequest(
    title: string,
    message: string,
    url: Option<string>,
    dialogTitle: string,
    excludedActivityTypes: Option<seq<string>>)

  /** The request built by `shareVendingMachine`: on iOS the link travels as
      the URL; elsewhere it is appended to the message. `None` when the
      message cannot be built. */
  function BuildShareRequest(machine: Machine, customMessage: Option<string>, ratingText: string,
                             priceText: string, platform: Platform): (r: Option<ShareRequest>)
    ensures r.None? <==> GenerateShareContent(machine, customMessage, ratingText, priceText).None?
    ensures r.Some? ==> r.value.title == machine.name + " - VendingFinder" && r.value.dialogTitle == DialogTitle
    ensures r.Some? && platform == Ios ==>
              r.value.message == GenerateShareContent(machine, customMessage, ratingText, priceText).value &&
              r.value.url == Some(DeepLink(machine.id, platform)) &&
              r.value.excludedActivityTypes == Some(ExcludedIosActivities)
    ensures r.Some? && platform != Ios ==>
              r.value.message == GenerateShareContent(machine, customMessage, ratingText, priceText).value +
                                 "\n\n" + DeepLink(machine.id, platform) &&
              r.value.url.None? && r.value.excludedActivityTypes.None?
  {
    var content := GenerateShareContent(machine, customMessage, ratingText, priceText);
    if content.None? then None
    else
      var link := DeepLink(machine.id, platform);
      Some(ShareRequest(
        machine.name + " - VendingFinder",
        if platform == Ios then content.value else content.value + "\n\n" + link,
        if platform == Ios then Some(link) else None,
        DialogTitle,
        if platform == Ios then Some(ExcludedIosActivities) else None))
  }

  /** The link reaches the recipient on every platform: as the URL, or as
      the end of the message. */
  lemma ShareRequestCarriesLink(machine: Machine, customMessage: Option<string>, ratingText: string,
                                priceText: string, platform: Platform)
    requires BuildShareRequest(machine, customMessage, ratingText, priceText, platform).Some?
    ensures var request := BuildShareRequest(machine, customMessage, ratingText, priceText, platform).value;
            var link := DeepLink(machine.id, platform);
            request.url == Some(link) ||
            (|link| <= |request.message| && request.message[|request.message| - |link|..] == link)
  {
  }

  /** How the share sheet ended. */
  datatype ShareOutcome = SharedAction | DismissedAction | ShareThrew

  /** `shareVendingMachine`: true exactly when the message could be built
      and the sheet reports that it was shared; every error reads as false. */
  function ShareVendingMachine(machine: Machine, customMessage: Option<string>, ratingText: string,
                               priceText: string, platform: Platform, outcome: ShareOutcome): (shared: bool)
    ensures shared ==> outcome == SharedAction
    ensures shared <==> outcome == SharedAction &&
                        BuildShareRequest(machine, customMessage, ratingText, priceText, platform).Some?
  {
    var request := BuildShareRequest(machine, customMessage, ratingText, priceText, platform);
    request.Some? && outcome == SharedAction
  }
}
