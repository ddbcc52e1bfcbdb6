/**
 * The pure parts of the ERC-721 action provider
 * (action_providers/erc721/erc721_action_provider.py): argument defaults, the
 * explorer and marketplace links, the network check, the metadata record and the
 * messages the actions return. Web3, the wallet, DALL-E and IPFS are not modelled.
 */
module Erc721 {
  import opened Wrappers
  import opened Text

  /** Python truthiness of an optional string argument: present and non-empty. */
  predicate Truthy(o: Option<string>) {
    o.Some? && o.value != ""
  }

  /** `x or default` for an optional string argument. */
  function OrDefault(o: Option<string>, default: string): (r: string)
    ensures Truthy(o) ==> r == o.value
    ensures !Truthy(o) ==> r == default
  {
    if Truthy(o) then o.value else default
  }

  // ---------------------------------------------------------------
  // Defaults of `dalle_nft`
  // ---------------------------------------------------------------

  const NamePrefix := "Xoxo NFT: "

  /** `f"Xoxo NFT: {prompt[:30]}{'...' if len(prompt) > 30 else ''}"` */
  function DefaultNftName(prompt: string): (r: string)
    ensures IsPrefix(NamePrefix, r)
    ensures |prompt| <= 30 ==> r[|NamePrefix|..] == prompt
    ensures |prompt| > 30 ==> r[|NamePrefix|..] == prompt[..30] + "..."
    ensures |r| <= |NamePrefix| + 33
  {
    var cut := if |prompt| > 30 then prompt[..30] else prompt;
    var r := NamePrefix + cut + (if |prompt| > 30 then "..." else "");
    assert r[..|NamePrefix|] == NamePrefix;
    assert r[|NamePrefix|..] == cut + (if |prompt| > 30 then "..." else "");
    r
  }

  /** The name `dalle_nft` mints under: the caller's, or the default built from the prompt. */
  function NftName(nftName: Option<string>, prompt: string): (r: string)
    ensures Truthy(nftName) ==> r == nftName.value
    ensures !Truthy(nftName) ==> IsPrefix(NamePrefix, r) && |r| <= |NamePrefix| + 33
  {
    OrDefault(nftName, DefaultNftName(prompt))
  }

  /** Long prompts that agree on their first 30 characters get the same default name. */
  lemma DefaultNameCollides(p: string, q: string)
    requires |p| > 30 && |q| > 30 && p[..30] == q[..30]
    ensures DefaultNftName(p) == DefaultNftName(q)
  {
  }

  /** The default name gives back the prompt whenever the prompt is at most 30 characters long. */
  lemma DefaultNameShortPrompt(p: string, q: string)
    requires |p| <= 30 && |q| <= 30
    ensures DefaultNftName(p) == DefaultNftName(q) <==> p == q
  {
    if DefaultNftName(p) == DefaultNftName(q) {
      assert p == DefaultNftName(p)[|NamePrefix|..];
    }
  }

  const DefaultCollectionName := "Xoxo NFT Collection"
  const DefaultCollectionSymbol := "XOXO"

  /** The collection name and symbol after their defaults. */
  function Collection(name: Option<string>, symbol: Option<string>): (r: (string, string))
    ensures r.0 != "" && r.1 != ""
    ensures r.0 == OrDefault(name, DefaultCollectionName) && r.1 == OrDefault(symbol, DefaultCollectionSymbol)
  {
    (OrDefault(name, DefaultCollectionName), OrDefault(symbol, DefaultCollectionSymbol))
  }

  const MissingCollectionError := "Error: collection_name and collection_symbol are required when contract_address is not provided. Please provide either an existing contract_address or both collection_name and collection_symbol."

  /**
   * The check for a missing collection: an error without a contract address and
   * without a name or symbol. As both have non-empty defaults, it never fires.
   */
  function CollectionCheck(contract: Option<string>, name: Option<string>, symbol: Option<string>): (r: Option<string>)
    ensures r.None?
  {
    var c := Collection(name, symbol);
    if !Truthy(contract) && (c.0 == "" || c.1 == "") then Some(MissingCollectionError) else None
  }

  // ---------------------------------------------------------------
  // Links
  // ---------------------------------------------------------------

  const Explorer := "https://sepolia.basescan.org/"

  /** The explorer link of a transaction. */
  function TxUrl(explorer: string, hash: string): (r: string)
    ensures var base := if EndsWith(explorer, "/") then explorer[..|explorer| - 1] else explorer;
      r == base + "/tx/" + hash
  {
    if EndsWith(explorer, "/") then
      assert explorer == explorer[..|explorer| - 1] + "/";
      explorer + "tx/" + hash
    else explorer + "/tx/" + hash
  }

  /** A trailing slash on the explorer makes no difference to the link. */
  lemma TxUrlSlash(explorer: string, hash: string)
    requires !EndsWith(explorer, "/")
    ensures TxUrl(explorer + "/", hash) == TxUrl(explorer, hash)
  {
    assert EndsWith(explorer + "/", "/");
    assert (explorer + "/")[..|explorer|] == explorer;
  }

  /** The configured explorer gives "https://sepolia.basescan.org/tx/" followed by the hash. */
  lemma ExplorerTxUrl(hash: string)
    ensures TxUrl(Explorer, hash) == "https://sepolia.basescan.org/tx/" + hash
  {
    assert EndsWith(Explorer, "/");
  }

  /** The marketplace's base link for Base Sepolia assets. */
  const OpenSeaBase := "https" + ":" + "//testnets.opensea.io" + "/assets/base_sepolia/"

  /** The marketplace link, with the placeholder token id "latest". */
  function OpenSeaUrl(contract: string): string {
    OpenSeaBase + contract + "/latest"
  }

  const OpenSeaLabel := "View on OpenSea"
  const OpenSeaLead := OpenSeaLabel + " (after confirmation)" + ":" + " "

  // ---------------------------------------------------------------
  // Network, metadata, messages
  // ---------------------------------------------------------------

  datatype Network = Network(name: string, protocolFamily: string, chainId: int, rpcUrl: string, explorerUrl: string)

  /** `supports_network` */
  function SupportsNetwork(network: Network): (r: bool)
    ensures r <==> network.protocolFamily == "evm"
  {
    network.protocolFamily == "evm"
  }

  /**
   * Support depends on the protocol family alone, compared case-sensitively: the name,
   * chain id, RPC and explorer play no part, and "EVM" is not "evm".
   */
  lemma SupportsFamilyOnly(a: Network, b: Network)
    ensures a.protocolFamily == b.protocolFamily ==> SupportsNetwork(a) == SupportsNetwork(b)
    ensures SupportsNetwork(a) && !SupportsNetwork(b) ==> a.protocolFamily != b.protocolFamily
    ensures SupportsNetwork(a) ==> !SupportsNetwork(a.(protocolFamily := "EVM"))
  {
    assert "EVM" != "evm" by { assert "EVM"[0] != "evm"[0]; }
  }

  datatype Attribute = Attribute(traitType: string, value: string)

  datatype Metadata = Metadata(name: string, description: string, image: string, attributes: seq<Attribute>)

  const DescriptionLead := "This NFT was generated by DALL-E using the prompt: "

  /** The metadata record `create_and_upload_metadata` uploads. */
  function NftMetadata(prompt: string, imageIpfsUrl: string, name: string): (r: Metadata)
    ensures r.name == name && r.image == imageIpfsUrl
    ensures IsPrefix(DescriptionLead, r.description) && r.description[|DescriptionLead|..] == prompt
    ensures |r.attributes| == 3
    ensures r.attributes[0].traitType == "Generator" && r.attributes[1].traitType == "Prompt" && r.attributes[2].traitType == "Collection"
    ensures r.attributes[0].value == "DALL-E" && r.attributes[1].value == prompt && r.attributes[2].value == "Xoxo NFT"
  {
    var d := DescriptionLead + prompt;
    assert d[..|DescriptionLead|] == DescriptionLead;
    Metadata(name, d, imageIpfsUrl, [
      Attribute("Generator", "DALL-E"),
      Attribute("Prompt", prompt),
      Attribute("Collection", "Xoxo NFT")])
  }

  /** The prompt is recoverable from the description alone. */
  lemma MetadataPrompt(prompt: string, image: string, name: string, other: string)
    ensures NftMetadata(prompt, image, name).description == NftMetadata(other, image, name).description <==> prompt == other
  {
    var a, b := NftMetadata(prompt, image, name).description, NftMetadata(other, image, name).description;
    if a == b {
      assert prompt == a[|DescriptionLead|..];
    }
  }

  /** `f"{n}"` for an integer. */
  function Decimal(n: int): (r: string)
    ensures r != ""
    decreases if n < 0 then 1 - n else n
  {
    if n < 0 then "-" + Decimal(-n)
    else if n < 10 then [DigitChar(n)]
    else Decimal(n / 10) + [DigitChar(n % 10)]
  }

  function DigitChar(d: int): char
    requires 0 <= d < 10
  {
    "0123456789"[d]
  }

  const TransferredLead := "Successfully transferred NFT "
  /** The failure text of `transfer`. */
  const FailedLead := "Transaction completed" + " but failed. Check logs for details. Transaction hash: "

  /** What `transfer` returns once the receipt is in. */
  function TransferMessage(receiptStatus: int, contract: string, tokenId: int, destination: string, hash: string): (r: string)
    ensures receiptStatus == 1 <==> IsPrefix(TransferredLead, r)
    ensures receiptStatus != 1 ==> r == FailedLead + hash
  {
    if receiptStatus == 1 then
      var r := TransferredLead + contract + " with tokenId " + Decimal(tokenId) + " to " + destination + ". Transaction hash: " + hash;
      assert r[..|TransferredLead|] == TransferredLead;
      r
    else
      var r := FailedLead + hash;
      assert r[0] == "Transaction completed"[0] == 'T' && TransferredLead[0] == 'S';
      assert |r| >= |TransferredLead| ==> r[..|TransferredLead|][0] == r[0];
      r
  }

  /** The message `dalle_nft` returns after submitting the mint, one field per line. */
  function DalleSuccessLines(nftName: string, imageUrl: string, ipfsUrl: string, gatewayUrl: string,
                             metadataUri: string, contract: string, hash: string): (r: seq<string>)
    ensures |r| == 11
    ensures r[10] == OpenSeaLead + OpenSeaUrl(contract)
    ensures r[9] == "Transaction URL: " + TxUrl(Explorer, hash)
  {
    ["Successfully created and minted Xoxo DALL-E NFT!", "",
     "NFT Name: " + nftName,
     "DALL-E Image URL: " + imageUrl,
     "IPFS Image URL: " + ipfsUrl,
     "IPFS Gateway URL: " + gatewayUrl,
     "Metadata URI: " + metadataUri,
     "Contract Address: " + contract,
     "Transaction Hash: " + hash,
     "Transaction URL: " + TxUrl(Explorer, hash),
     OpenSeaLead + OpenSeaUrl(contract)]
  }

  /** The message of the `mint` action after the transaction is sent. */
  function MintSubmitted(destination: string, contract: string, hash: string): (r: string)
    ensures EndsWith(r, "\nTransaction URL: " + TxUrl(Explorer, hash))
  {
    var tail := "\nTransaction URL: " + TxUrl(Explorer, hash);
    var r := "NFT mint transaction submitted to " + destination + " at contract " + contract + ". Transaction hash: " + hash + tail;
    assert r[|r| - |tail|..] == tail;
    r
  }
}
