/**
 * The static knowledge base the chatbot retrieves from: a fixed table of four
 * entries, and two read-only queries over it (by category and by keyword).
 */
module Knowledge {
  import opened Wrappers
  import opened Sequences
  import opened Strings

  datatype KnowledgeEntry = KnowledgeEntry(
    id: string,
    title: string,
    content: string,
    category: string,
    tags: Option<seq<string>>,
    lastUpdated: Option<string>)

  /** BUSINESS_KNOWLEDGE, in declaration order. */
  const BusinessKnowledge: seq<KnowledgeEntry> := [
    KnowledgeEntry(
      "about-1",
      "About Our Company",
      "We are a crypto stablecoin banking app that uses smart wallets. Our platform enables users to mint, trade, and swap cryptocurrencies with no gas fees through gas sponsorship. We support both Web2 social login (Google, Facebook, Twitch, Discord, Twitter) and Web3 external wallets (MetaMask, WalletConnect, Coinbase Wallet).",
      "Company",
      Some(["about", "company", "overview"]),
      None),
    KnowledgeEntry(
      "features-1",
      "Smart Wallet Features",
      "Our smart wallets provide:\n- Gasless transactions through gas sponsorship\n- Social login options (email, passkey, Google, Facebook, Twitch, Discord, Twitter)\n- External wallet connections (MetaMask, WalletConnect, Coinbase Wallet)\n- NFT minting capabilities\n- Secure account abstraction (ERC-4337)",
      "Features",
      Some(["smart-wallet", "features", "gasless"]),
      None),
    KnowledgeEntry(
      "security-1",
      "Security Best Practices",
      "Security is our top priority:\n- All transactions are secured through smart contract wallets\n- Private keys are never exposed\n- We use industry-standard encryption\n- Support for hardware wallet connections\n- Multi-factor authentication available",
      "Security",
      Some(["security", "safety", "privacy"]),
      None),
    KnowledgeEntry(
      "support-1",
      "Getting Help",
      "If you need assistance:\n- Use this chatbot for common questions\n- For technical issues, contact our support team\n- For financial guidance, please consult with a financial advisor\n- Check our documentation for detailed guides",
      "Support",
      Some(["help", "support", "contact"]),
      None)
  ]

  function GetAllKnowledge(): (r: seq<KnowledgeEntry>)
    ensures |r| == 4
    ensures r[0].id == "about-1" && r[1].id == "features-1" && r[2].id == "security-1" && r[3].id == "support-1"
    ensures r[0].category == "Company" && r[1].category == "Features" && r[2].category == "Security" && r[3].category == "Support"
  {
    BusinessKnowledge
  }

  /** Entry ids are a key of the table. */
  lemma IdsAreDistinct()
    ensures forall i, j :: 0 <= i < j < |GetAllKnowledge()| ==> GetAllKnowledge()[i].id != GetAllKnowledge()[j].id
  {
  }

  /** The entries of one category, in table order. */
  function GetKnowledgeByCategory(category: string): (r: seq<KnowledgeEntry>)
    ensures forall e :: e in r <==> e in BusinessKnowledge && e.category == category
    ensures IsSubsequence(r, BusinessKnowledge)
  {
    var inCategory := (e: KnowledgeEntry) => e.category == category;
    FilterIsSubsequence(BusinessKnowledge, inCategory);
    Filter(BusinessKnowledge, inCategory)
  }

  /** A category that no entry carries selects nothing. */
  lemma UnknownCategoryIsEmpty(category: string)
    requires category !in {"Company", "Features", "Security", "Support"}
    ensures GetKnowledgeByCategory(category) == []
  {
    FilterKeepsNone(BusinessKnowledge, (e: KnowledgeEntry) => e.category == category);
  }

  /** Some tag of the entry, lower-cased, includes the (already lower-cased) query. */
  predicate SomeTagIncludes(tags: Option<seq<string>>, lowerQuery: string)
  {
    match tags
    case None => false
    case Some(ts) => exists t :: t in ts && Includes(Lower(t), lowerQuery)
  }

  predicate MatchesQuery(entry: KnowledgeEntry, lowerQuery: string)
  {
    Includes(Lower(entry.title), lowerQuery) ||
    Includes(Lower(entry.content), lowerQuery) ||
    SomeTagIncludes(entry.tags, lowerQuery)
  }

  /** Case-insensitive substring search over title, content and tags, in table order. */
  function SearchKnowledge(query: string): (r: seq<KnowledgeEntry>)
    ensures IsSubsequence(r, BusinessKnowledge)
  {
    var lowerQuery := Lower(query);
    var matches := (e: KnowledgeEntry) => MatchesQuery(e, lowerQuery);
    FilterIsSubsequence(BusinessKnowledge, matches);
    Filter(BusinessKnowledge, matches)
  }

  /** What the search promises, stated with substring positions rather than with the scanning `Includes`. */
  ghost predicate Mentions(entry: KnowledgeEntry, query: string)
  {
    var q := Lower(query);
    Occurs(q, Lower(entry.title)) ||
    Occurs(q, Lower(entry.content)) ||
    (entry.tags.Some? && exists t :: t in entry.tags.value && Occurs(q, Lower(t)))
  }

  lemma MatchesQueryIff(entry: KnowledgeEntry, query: string)
    ensures MatchesQuery(entry, Lower(query)) <==> Mentions(entry, query)
  {
    var q := Lower(query);
    IncludesIff(Lower(entry.title), q);
    IncludesIff(Lower(entry.content), q);
    if entry.tags.Some? {
      forall t | t in entry.tags.value
        ensures Includes(Lower(t), q) <==> Occurs(q, Lower(t))
      {
        IncludesIff(Lower(t), q);
      }
    }
  }

  /** An entry is returned exactly when the lower-cased query occurs in its lower-cased title, content or one of its tags. */
  lemma SearchKnowledgeIff(query: string, entry: KnowledgeEntry)
    ensures entry in SearchKnowledge(query) <==> entry in BusinessKnowledge && Mentions(entry, query)
  {
    MatchesQueryIff(entry, query);
  }

  /** The empty query matches every title, so it returns the whole table. */
  lemma EmptySearchReturnsAll()
    ensures SearchKnowledge("") == BusinessKnowledge
  {
    var lowerQuery := Lower("");
    assert lowerQuery == "";
    forall e | e in BusinessKnowledge
      ensures MatchesQuery(e, lowerQuery)
    {
      IncludesEmpty(Lower(e.title));
    }
    FilterKeepsAll(BusinessKnowledge, (e: KnowledgeEntry) => MatchesQuery(e, lowerQuery));
  }

  /** Re-casing the query does not change the result. */
  lemma SearchIgnoresCase(query: string, recased: string)
    requires Lower(recased) == Lower(query)
    ensures SearchKnowledge(recased) == SearchKnowledge(query)
  {
  }

  lemma SearchUpperCaseQuery(query: string)
    ensures SearchKnowledge(Upper(query)) == SearchKnowledge(query)
  {
    LowerOfUpper(query);
    SearchIgnoresCase(query, Upper(query));
  }

  /** An entry without tags can only be found through its title or its content. */
  lemma UntaggedMatchesTitleOrContent(entry: KnowledgeEntry, query: string)
    requires entry.tags.None?
    ensures Mentions(entry, query) <==> Occurs(Lower(query), Lower(entry.title)) || Occurs(Lower(query), Lower(entry.content))
  {
  }
}
