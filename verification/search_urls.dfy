/**
 * The URL list of a `search_results` frame, taken from the output of a
 * finished `google_serper` tool run.
 */
module SearchUrls {
  import opened Wrappers
  import opened JsonValues

  /** At most this many URLs are sent to the client. */
  const MAX_URLS := 8

  /**
   * The output of a finished tool run: either a string, which `json.loads`
   * decodes (`decoded`) or rejects (None), or a value that is already
   * structured as JSON and is used as it is.
   */
  datatype ToolOutput = TextOutput(decoded: Option<Json>) | StructuredOutput(value: Json)

  /** The two comprehensions: over the `organic` entries of a dict, or over a bare list. */
  datatype Rule = OrganicLinks | ListedLinks

  /** The parsed value, or None when the text was not valid JSON. */
  function Decoded(output: ToolOutput): (parsed: Option<Json>)
    ensures output.TextOutput? ==> parsed == output.decoded
    ensures output.StructuredOutput? ==> parsed == Some(output.value)
  {
    match output
    case TextOutput(decoded) => decoded
    case StructuredOutput(value) => Some(value)
  }

  /**
   * For a dict item of a bare list: its `link` when that is truthy, else
   * its `url`, else the empty string.
   */
  function LinkOrUrl(fields: map<string, Json>): (u: Json)
    ensures u in fields.Values || u == JString("")
    ensures "link" in fields && Truthy(fields["link"]) ==> u == fields["link"]
    ensures !("link" in fields && Truthy(fields["link"])) && "url" in fields ==> u == fields["url"]
    ensures !("link" in fields && Truthy(fields["link"])) && "url" !in fields ==> u == JString("")
  {
    var link := Get(fields, "link", JNONE);
    if Truthy(link) then link else Get(fields, "url", JString(""))
  }

  /** What one item contributes under a rule: nothing, or one URL. */
  function Pick(item: Json, rule: Rule): (picked: Option<Json>)
    ensures picked.Some? ==> item.JObject? && picked.value in item.fields.Values + {JString("")}
    ensures rule == ListedLinks ==> (picked.Some? <==> item.JObject?)
    ensures rule == OrganicLinks ==> (picked.Some? <==> item.JObject? && "link" in item.fields)
    ensures picked.Some? && rule == OrganicLinks ==> picked.value == item.fields["link"]
    ensures picked.Some? && rule == ListedLinks ==> picked.value == LinkOrUrl(item.fields)
  {
    match rule
    case OrganicLinks =>
      if item.JObject? && "link" in item.fields then Some(item.fields["link"]) else None
    case ListedLinks =>
      if item.JObject? then Some(LinkOrUrl(item.fields)) else None
  }

  /** The URLs the comprehension collects from `items`, before the cap. */
  function Collect(items: seq<Json>, rule: Rule): (links: seq<Json>)
    ensures |links| <= |items|
  {
    if items == [] then []
    else
      (match Pick(items[0], rule) case Some(u) => [u] case None => []) + Collect(items[1..], rule)
  }

  /**
   * What `for item in organic` visits that can be a dict: the entries of a
   * list. Iterating a dict or a string visits only strings, and iterating
   * any other value raises a TypeError that the server catches, so in every
   * other case no URL is collected.
   */
  function OrganicEntries(organic: Json): (entries: seq<Json>)
    ensures organic.JArray? ==> entries == organic.items
    ensures !organic.JArray? ==> entries == []
  {
    if organic.JArray? then organic.items else []
  }

  /** The list the URLs are drawn from and the rule that picks them, when the parsed output has an expected shape. */
  function UrlSource(output: ToolOutput): (source: Option<(seq<Json>, Rule)>)
    ensures source.Some? <==>
      && Decoded(output).Some?
      && ((Decoded(output).value.JObject? && "organic" in Decoded(output).value.fields) || Decoded(output).value.JArray?)
    ensures source.Some? ==> (source.value.1 == ListedLinks <==> Decoded(output).value.JArray?)
    ensures source.Some? && source.value.1 == OrganicLinks ==>
      source.value.0 == OrganicEntries(Decoded(output).value.fields["organic"])
    ensures source.Some? && source.value.1 == ListedLinks ==> source.value.0 == Decoded(output).value.items
  {
    match Decoded(output)
    case None => None
    case Some(parsed) =>
      if parsed.JObject? && "organic" in parsed.fields then Some((OrganicEntries(parsed.fields["organic"]), OrganicLinks))
      else if parsed.JArray? then Some((parsed.items, ListedLinks))
      else None
  }

  /** The `urls` of the `search_results` frame: at most MAX_URLS of them. */
  function ExtractUrls(output: ToolOutput): (urls: seq<Json>)
    ensures |urls| <= MAX_URLS
  {
    match UrlSource(output)
    case None => []
    case Some((items, rule)) =>
      var links := Collect(items, rule);
      if |links| <= MAX_URLS then links else links[..MAX_URLS]
  }

  /** Collecting commutes with concatenation: the URLs keep the order of their items. */
  lemma {:induction false} CollectAppend(a: seq<Json>, b: seq<Json>, rule: Rule)
    ensures Collect(a + b, rule) == Collect(a, rule) + Collect(b, rule)
  {
    if a == [] {
      assert a + b == b;
    } else {
      assert (a + b)[0] == a[0];
      assert (a + b)[1..] == a[1..] + b;
      CollectAppend(a[1..], b, rule);
    }
  }

  /** The URLs collected from one item are exactly what that item contributes. */
  lemma CollectOne(item: Json, rule: Rule)
    ensures Collect([item], rule) == match Pick(item, rule) case Some(u) => [u] case None => []
  {
    assert [item][1..] == [];
  }

  /**
   * Soundness and order: the i-th collected URL is picked from some item k,
   * and exactly i URLs come from the items before k.
   */
  lemma {:induction false} CollectOrigin(items: seq<Json>, rule: Rule, i: nat)
    requires i < |Collect(items, rule)|
    ensures exists k ::
      && 0 <= k < |items|
      && Pick(items[k], rule) == Some(Collect(items, rule)[i])
      && |Collect(items[..k], rule)| == i
  {
    var k := |items| - 1;
    assert items == items[..k] + [items[k]];
    CollectAppend(items[..k], [items[k]], rule);
    CollectOne(items[k], rule);
    if i < |Collect(items[..k], rule)| {
      CollectOrigin(items[..k], rule, i);
      var k' :| 0 <= k' < |items[..k]| && Pick(items[..k][k'], rule) == Some(Collect(items[..k], rule)[i])
        && |Collect(items[..k][..k'], rule)| == i;
      assert items[..k][..k'] == items[..k'];
    }
  }

  /**
   * Completeness up to the cap: every item that contributes a URL puts it at
   * the position given by the number of URLs before it.
   */
  lemma CollectPosition(items: seq<Json>, rule: Rule, k: nat)
    requires k < |items| && Pick(items[k], rule).Some?
    ensures var before := |Collect(items[..k], rule)|;
      before < |Collect(items, rule)| && Collect(items, rule)[before] == Pick(items[k], rule).value
  {
    assert items == items[..k] + [items[k]] + items[k + 1..];
    CollectAppend(items[..k] + [items[k]], items[k + 1..], rule);
    CollectAppend(items[..k], [items[k]], rule);
    CollectOne(items[k], rule);
  }

  /**
   * The URLs are the first MAX_URLS of those collected, in order, and they
   * can only be non-empty when the output decodes to a dict with `organic`
   * or to a list.
   */
  lemma UrlsArePrefixOfCollected(output: ToolOutput)
    ensures UrlSource(output).None? ==> ExtractUrls(output) == []
    ensures UrlSource(output).Some? ==>
      var links := Collect(UrlSource(output).value.0, UrlSource(output).value.1);
      && ExtractUrls(output) <= links
      && |ExtractUrls(output)| == if |links| < MAX_URLS then |links| else MAX_URLS
  {
  }
}
