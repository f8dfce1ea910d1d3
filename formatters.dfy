/** The icon-name table and image-URL helper of utils/formatters.ts. */
module Formatters {
  import opened Wrappers
  import opened Strings

  /** Icon shown for each sport id the table knows. */
  const SportIcons: map<string, string> := map[
    "football" := "trophy",
    "basketball" := "activity",
    "tennis" := "circle-dot",
    "hockey" := "snowflake",
    "baseball" := "diamond",
    "mma" := "swords",
    "boxing" := "swords",
    "f1" := "wind",
    "cricket" := "target"
  ]

  const DefaultIcon: string := "activity"

  /** `map[sportId] || 'activity'`: the table's entry when it is a non-empty string, the default otherwise. */
  function SportIconName(sportId: string): (r: string)
    ensures r != ""
    ensures r in SportIcons.Values
    ensures sportId in SportIcons ==> r == SportIcons[sportId]
  {
    assert SportIcons["basketball"] == DefaultIcon;
    if sportId in SportIcons && SportIcons[sportId] != "" then SportIcons[sportId] else DefaultIcon
  }

  /** Each of the nine known sport ids gets its listed icon. */
  lemma KnownSportIcons()
    ensures SportIconName("football") == "trophy"
    ensures SportIconName("basketball") == "activity"
    ensures SportIconName("tennis") == "circle-dot"
    ensures SportIconName("hockey") == "snowflake"
    ensures SportIconName("baseball") == "diamond"
    ensures SportIconName("mma") == "swords"
    ensures SportIconName("boxing") == "swords"
    ensures SportIconName("f1") == "wind"
    ensures SportIconName("cricket") == "target"
  {
  }

  /** Exactly the two combat sports share the `swords` icon. */
  lemma SwordsIffCombatSport(sportId: string)
    ensures SportIconName(sportId) == "swords" <==> sportId == "mma" || sportId == "boxing"
  {
    if sportId in SportIcons {
      assert sportId in {"football", "basketball", "tennis", "hockey", "baseball", "mma", "boxing", "f1", "cricket"};
    }
  }

  /** An unknown sport id falls back to the icon basketball uses. */
  lemma UnknownSportLikeBasketball(sportId: string)
    requires sportId !in SportIcons
    ensures SportIconName(sportId) == DefaultIcon == SportIconName("basketball")
  {
  }

  const FallbackImage: string := "https://picsum.photos/50/50?grayscale"
  const ImageHost: string := "https://livesport.su"

  /** `getImageUrl(url?)`: absolute URLs pass through, relative ones are put under the site host. */
  function ImageUrl(url: Option<string>): (r: string)
    ensures StartsWith(r, "http")
    ensures url.Some? && url.value != "" ==> EndsWith(r, url.value)
  {
    assert FallbackImage[0] == 'h' && FallbackImage[1] == 't' && FallbackImage[2] == 't' && FallbackImage[3] == 'p';
    assert FallbackImage[..4] == "http";
    if url.None? || url.value == "" then FallbackImage
    else if StartsWith(url.value, "http") then url.value
    else ImageHost + url.value
  }

  /** A missing or empty URL gives the fixed placeholder image. */
  lemma ImageUrlFallback(url: Option<string>)
    requires url == None || url == Some("")
    ensures ImageUrl(url) == FallbackImage
  {
  }

  /** A URL starting with `http` (so also `https`) is returned unchanged. */
  lemma ImageUrlKeepsAbsolute(url: string)
    requires StartsWith(url, "http")
    ensures ImageUrl(Some(url)) == url
  {
  }

  /** Any other non-empty URL is prefixed with the site host. */
  lemma ImageUrlPrefixesRelative(url: string)
    requires url != "" && !StartsWith(url, "http")
    ensures ImageUrl(Some(url)) == ImageHost + url
  {
  }

  /** Applying the helper to its own output changes nothing. */
  lemma ImageUrlIdempotent(url: Option<string>)
    ensures ImageUrl(Some(ImageUrl(url))) == ImageUrl(url)
  {
    var r := ImageUrl(url);
    assert StartsWith(r, "http") && r != "";
  }
}
