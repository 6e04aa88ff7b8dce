/**
 * The web application's classification of a hostname as productive,
 * unproductive, neutral or unknown, by substring search over two constant
 * tables of domains (src/utils/siteDetection.js).
 */
module SiteDetection {
  import opened Wrappers
  import opened Text

  datatype Category = Productive | Unproductive | Neutral | Unknown

  /** A table of named entries, each with the domains it lists, in declaration order. */
  type Table = seq<(string, seq<string>)>

  const UnproductiveSites: Table := [
    ("instagram", ["instagram.com", "www.instagram.com"]),
    ("facebook", ["facebook.com", "www.facebook.com"]),
    ("twitter", ["twitter.com", "www.twitter.com", "x.com", "www.x.com"]),
    ("tiktok", ["tiktok.com", "www.tiktok.com"]),
    ("snapchat", ["snapchat.com", "www.snapchat.com"]),
    ("reddit", ["reddit.com", "www.reddit.com"]),
    ("youtube", ["youtube.com", "www.youtube.com"]),
    ("twitch", ["twitch.tv", "www.twitch.tv"]),
    ("netflix", ["netflix.com", "www.netflix.com"]),
    ("spotify", ["spotify.com", "www.spotify.com"]),
    ("soundcloud", ["soundcloud.com", "www.soundcloud.com"]),
    ("steam", ["steampowered.com", "www.steampowered.com"]),
    ("epicgames", ["epicgames.com", "www.epicgames.com"]),
    ("discord", ["discord.com", "www.discord.com"])
  ]

  const ProductiveSites: Table := [
    ("chatgpt", ["openai.com", "chat.openai.com", "www.openai.com"]),
    ("claude", ["claude.ai", "www.claude.ai"]),
    ("gemini", ["gemini.google.com", "www.gemini.google.com"]),
    ("perplexity", ["perplexity.ai", "www.perplexity.ai"]),
    ("coursera", ["coursera.org", "www.coursera.org"]),
    ("udemy", ["udemy.com", "www.udemy.com"]),
    ("edx", ["edx.org", "www.edx.org"]),
    ("linkedin", ["linkedin.com", "www.linkedin.com"]),
    ("github", ["github.com", "www.github.com"]),
    ("stackoverflow", ["stackoverflow.com", "www.stackoverflow.com"]),
    ("mdn", ["developer.mozilla.org"]),
    ("vscode", ["vscode.dev", "www.vscode.dev"]),
    ("replit", ["replit.com", "www.replit.com"]),
    ("codepen", ["codepen.io", "www.codepen.io"]),
    ("notion", ["notion.so", "www.notion.so"]),
    ("google", ["google.com", "www.google.com", "drive.google.com"]),
    ("microsoft", ["office.com", "outlook.office.com"])
  ]

  /** Entry `i` of `table` lists a domain that occurs in `hostname`. */
  ghost predicate EntryMatches(table: Table, i: int, hostname: string)
    requires 0 <= i < |table|
  {
    exists j :: 0 <= j < |table[i].1| && OccursIn(table[i].1[j], hostname)
  }

  /** Some domain anywhere in `table` occurs in `hostname`. */
  ghost predicate Listed(table: Table, hostname: string) {
    exists i :: 0 <= i < |table| && EntryMatches(table, i, hostname)
  }

  /** `domains.some(domain => hostname.includes(domain))`. */
  function SomeIncluded(hostname: string, domains: seq<string>): (b: bool)
    ensures b <==> exists j :: 0 <= j < |domains| && OccursIn(domains[j], hostname)
  {
    if domains == [] then false
    else if Includes(hostname, domains[0]) then true
    else
      var b := SomeIncluded(hostname, domains[1..]);
      assert forall j :: 1 <= j < |domains| ==> domains[j] == domains[1..][j - 1];
      b
  }

  /** The position of the first entry, in declaration order, that matches `hostname`. */
  function FirstMatch(table: Table, hostname: string): (r: Option<nat>)
    ensures r.None? <==> !Listed(table, hostname)
    ensures r.Some? ==> r.value < |table| && EntryMatches(table, r.value, hostname)
    ensures r.Some? ==> forall i :: 0 <= i < r.value ==> !EntryMatches(table, i, hostname)
  {
    if table == [] then None
    else if SomeIncluded(hostname, table[0].1) then
      assert EntryMatches(table, 0, hostname);
      Some(0)
    else
      var r := FirstMatch(table[1..], hostname);
      assert forall i :: 1 <= i < |table| ==> table[i] == table[1..][i - 1];
      assert forall i :: 1 <= i < |table| ==>
        (EntryMatches(table, i, hostname) <==> EntryMatches(table[1..], i - 1, hostname));
      if r.None? then None
      else
        assert EntryMatches(table, r.value + 1, hostname);
        Some(r.value + 1)
  }

  /** The first entry that matches, with none before it, is the one `FirstMatch` finds. */
  lemma FirstMatchAt(table: Table, hostname: string, i: nat)
    requires i < |table| && EntryMatches(table, i, hostname)
    requires forall j :: 0 <= j < i ==> !EntryMatches(table, j, hostname)
    ensures FirstMatch(table, hostname) == Some(i)
  {
    assert Listed(table, hostname);
  }

  /** A hostname that is present and not the empty string (`!hostname` is false). */
  predicate Present(hostname: Option<string>) {
    hostname.Some? && hostname.value != []
  }

  /** The productive table wins over the unproductive one; a missing or empty hostname is unknown. */
  function GetSiteCategory(hostname: Option<string>): (c: Category)
    ensures c == Unknown <==> !Present(hostname)
    ensures c == Productive <==> Present(hostname) && Listed(ProductiveSites, hostname.value)
    ensures c == Unproductive <==> Present(hostname) && !Listed(ProductiveSites, hostname.value)
                                   && Listed(UnproductiveSites, hostname.value)
    ensures c == Neutral <==> Present(hostname) && !Listed(ProductiveSites, hostname.value)
                              && !Listed(UnproductiveSites, hostname.value)
  {
    if !Present(hostname) then Unknown
    else if FirstMatch(ProductiveSites, hostname.value).Some? then Productive
    else if FirstMatch(UnproductiveSites, hostname.value).Some? then Unproductive
    else Neutral
  }

  function IsUnproductiveSite(hostname: Option<string>): (b: bool)
    ensures b <==> Present(hostname) && !Listed(ProductiveSites, hostname.value)
                   && Listed(UnproductiveSites, hostname.value)
  {
    GetSiteCategory(hostname) == Unproductive
  }

  function IsProductiveSite(hostname: Option<string>): (b: bool)
    ensures b <==> Present(hostname) && Listed(ProductiveSites, hostname.value)
    ensures b ==> !IsUnproductiveSite(hostname)
  {
    GetSiteCategory(hostname) == Productive
  }

  /** Matching is by substring: any text around a listed domain still matches it. */
  lemma {:induction false} SubstringMatch(pre: string, d: string, post: string, table: Table, i: nat, j: nat)
    requires i < |table| && j < |table[i].1| && table[i].1[j] == d
    ensures EntryMatches(table, i, pre + d + post) && Listed(table, pre + d + post)
  {
    var h := pre + d + post;
    assert h[|pre|..|pre| + |d|] == d;
    assert OccursAt(d, h, |pre|);
    assert EntryMatches(table, i, h);
  }

  /** A hostname holding an unproductive domain is unproductive unless some productive domain also occurs in it. */
  lemma UnproductiveUnlessProductive(pre: string, post: string)
    ensures var h := pre + "instagram.com" + post;
      GetSiteCategory(Some(h)) == (if Listed(ProductiveSites, h) then Productive else Unproductive)
  {
    SubstringMatch(pre, "instagram.com", post, UnproductiveSites, 0, 0);
  }
}
