/** The dashboard's home view (src/components/Home.tsx): the greeting chosen by the hour,
    the user's first name, and the snippet cards that preview the first few items of a
    list. The clock is the parameter `hours` (`new Date().getHours()`). */
module Home {
  import opened Wrappers
  import opened Strings
  import opened Seqs
  import SpotifyService

  /** A snippet card shows at most this many items. */
  const SnippetLimit := 4

  /** `getGreeting()`: the three greetings split the hours of the day. */
  function Greeting(hours: int): (g: string)
    ensures g == "Good morning" <==> hours < 12
    ensures g == "Good afternoon" <==> 12 <= hours < 17
    ensures g == "Good evening" <==> 17 <= hours
  {
    if hours < 12 then "Good morning"
    else if hours < 17 then "Good afternoon"
    else "Good evening"
  }

  /** `userProfile?.display_name?.split(" ")[0]`: the display name up to its first space,
      or nothing when there is no profile or no display name. */
  function FirstName(profile: Option<SpotifyService.UserProfile>): (r: Option<string>)
    ensures r.None? <==> profile.None? || profile.value.displayName.None?
    ensures r.Some? ==>
              var name := profile.value.displayName.value;
              ' ' !in r.value && StartsWith(name, r.value)
              && (|r.value| < |name| ==> name[|r.value|] == ' ')
  {
    match profile
    case None => None
    case Some(p) =>
      match p.displayName
      case None => None
      case Some(name) => Some(Split(name, ' ')[0])
  }

  /** The heading text: greeting, comma, first name (an absent name renders as nothing). */
  function Heading(hours: int, profile: Option<SpotifyService.UserProfile>): (h: string)
    ensures StartsWith(h, Greeting(hours) + ", ")
    ensures FirstName(profile).None? ==> h == Greeting(hours) + ", "
    ensures FirstName(profile).Some? ==> h[|Greeting(hours)| + 2..] == FirstName(profile).value
  {
    var head := Greeting(hours) + ", ";
    assert (head + FirstName(profile).GetOr(""))[..|head|] == head;
    head + FirstName(profile).GetOr("")
  }

  /** A one-word display name is greeted in full. */
  lemma SingleWordNameInFull(hours: int, p: SpotifyService.UserProfile)
    requires p.displayName.Some? && ' ' !in p.displayName.value
    ensures Heading(hours, Some(p)) == Greeting(hours) + ", " + p.displayName.value
  {
    SplitWithoutSeparator(p.displayName.value, ' ');
  }

  /** A snippet card is rendered only for a non-empty list, and shows its first four
      items in order (`items.slice(0, 4)`). */
  function Snippet<T>(items: seq<T>): (card: Option<seq<T>>)
    ensures card.None? <==> items == []
    ensures card.Some? ==> |card.value| == Min(SnippetLimit, |items|) && card.value == items[..|card.value|]
  {
    if |items| > 0 then Some(Take(items, SnippetLimit)) else None
  }
}
