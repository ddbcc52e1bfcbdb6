/**
 * The DALL-E NFT minting service (dalle-nft-api/main.py): the table of minting
 * tasks, the background task that fills a record in, and the parser that pulls
 * the links out of the text the ERC-721 provider's `dalle_nft` action returns.
 */
module Mint {
  import opened Wrappers
  import opened Text
  import Erc721

  // ---------------------------------------------------------------
  // The result parser
  // ---------------------------------------------------------------

  /** The five values the parser looks for. */
  datatype Field = ImageUrl | IpfsUrl | TransactionHash | TransactionUrl | OpenSeaUrl

  const ImageLabel := "DALL-E Image URL:"
  const IpfsLabel := "IPFS Image URL:"
  const HashLabel := "Transaction Hash:"
  const TxUrlLabel := "Transaction URL:"

  /** The label a line is tested for, per field. */
  function Label(f: Field): string {
    match f
    case ImageUrl => ImageLabel
    case IpfsUrl => IpfsLabel
    case TransactionHash => HashLabel
    case TransactionUrl => TxUrlLabel
    case OpenSeaUrl => Erc721.OpenSeaLabel
  }

  /** The field a line sets: the first label of the `elif` chain the line contains, if any. */
  function Classify(line: string): (r: Option<Field>)
    ensures r.Some? ==> Contains(line, Label(r.value))
  {
    if Contains(line, ImageLabel) then Some(ImageUrl)
    else if Contains(line, IpfsLabel) then Some(IpfsUrl)
    else if Contains(line, HashLabel) then Some(TransactionHash)
    else if Contains(line, TxUrlLabel) then Some(TransactionUrl)
    else if Contains(line, Erc721.OpenSeaLabel) then Some(OpenSeaUrl)
    else None
  }

  /** The order of the `elif` chain: a line is given to the first field whose label it contains. */
  lemma ClassifyPriority(line: string, f: Field)
    ensures Classify(line) == Some(f) <==> Contains(line, Label(f)) && forall g: Field :: Rank(g) < Rank(f) ==> !Contains(line, Label(g))
    ensures Classify(line).None? <==> forall g: Field :: !Contains(line, Label(g))
  {
    assert forall g: Field :: Rank(g) < Rank(f) ==> g in Before(f);
  }

  /** The position of a field's test in the chain. */
  function Rank(f: Field): (r: nat)
    ensures r < 5
  {
    match f
    case ImageUrl => 0
    case IpfsUrl => 1
    case TransactionHash => 2
    case TransactionUrl => 3
    case OpenSeaUrl => 4
  }

  function Before(f: Field): set<Field> {
    match f
    case ImageUrl => {}
    case IpfsUrl => {ImageUrl}
    case TransactionHash => {ImageUrl, IpfsUrl}
    case TransactionUrl => {ImageUrl, IpfsUrl, TransactionHash}
    case OpenSeaUrl => {ImageUrl, IpfsUrl, TransactionHash, TransactionUrl}
  }

  /** `line.split(key)[1].strip()` */
  function LabelValue(line: string, key: string): (r: Result<string>)
    requires |key| > 0
    ensures r.Success? <==> Contains(line, key)
  {
    SplitLength(line, key);
    match SecondPiece(line, key)
    case Failure(e) => Failure(e)
    case Success(v) => Success(Strip(v))
  }

  /** The OpenSea value as written: `line.split(":")[1].strip()`, the text between the first two colons. */
  function OpenSeaValueAsWritten(line: string): (r: Result<string>)
    ensures r.Success? <==> Contains(line, ":")
  {
    LabelValue(line, ":")
  }

  /** The OpenSea value as intended: everything after the first colon, stripped. */
  function OpenSeaValue(line: string): (r: Result<string>)
    ensures r.Success? <==> Contains(line, ":")
  {
    IndexOfContains(line, ":");
    match IndexOf(line, ":")
    case None => Failure("list index out of range")
    case Some(i) => Success(Strip(line[i + 1..]))
  }

  /** The intended value is the stripped text after the first colon of the line. */
  lemma OpenSeaValueAfterColon(line: string)
    requires Contains(line, ":")
    ensures exists i ::
      && OccursAt(line, ":", i)
      && (forall j :: 0 <= j < i ==> !OccursAt(line, ":", j))
      && OpenSeaValue(line) == Success(Strip(line[i + 1..]))
  {
    IndexOfContains(line, ":");
    var i := IndexOf(line, ":").value;
    assert OccursAt(line, ":", i);
  }

  /**
   * The two readings of the OpenSea line: the program as written (`split(":")[1]`), which
   * the task table uses, and the intended one (everything after the first colon).
   */
  datatype Reading = AsWritten | Intended

  /** The value a line gives for its field. */
  function LineValue(line: string, f: Field, reading: Reading): Result<string> {
    if f != OpenSeaUrl then LabelValue(line, Label(f))
    else if reading == AsWritten then OpenSeaValueAsWritten(line)
    else OpenSeaValue(line)
  }

  /** A labelled line fails to give a value only when it is an OpenSea line without a colon. */
  lemma LineValueFails(line: string, reading: Reading)
    requires Classify(line).Some?
    ensures LineValue(line, Classify(line).value, reading).Failure? <==> Classify(line) == Some(OpenSeaUrl) && !Contains(line, ":")
  {
  }

  /** The values parsed so far, keyed by field; a missing key is Python's `None`. */
  type Parsed = map<Field, string>

  function Get(p: Parsed, f: Field): Option<string> {
    if f in p then Some(p[f]) else None
  }

  /** What one line does to the parse: nothing, or set a field to a value (or raise). */
  datatype Step = Skip | Set(field: Field, value: Result<string>)

  function LineStep(line: string, reading: Reading): Step {
    match Classify(line)
    case None => Skip
    case Some(f) => Set(f, LineValue(line, f, reading))
  }

  function Apply(p: Parsed, step: Step): Result<Parsed> {
    match step
    case Skip => Success(p)
    case Set(f, Failure(e)) => Failure(e)
    case Set(f, Success(v)) => Success(p[f := v])
  }

  /** One turn of the loop: a labelled line overwrites its field; an exception ends the parse. */
  function ParseLine(p: Parsed, line: string, reading: Reading): (r: Result<Parsed>)
    ensures Classify(line).None? ==> r == Success(p)
    ensures r.Failure? <==> Classify(line).Some? && LineValue(line, Classify(line).value, reading).Failure?
  {
    Apply(p, LineStep(line, reading))
  }

  /** The parse of a sequence of lines, in order. */
  function ParseLines(lines: seq<string>, reading: Reading): Result<Parsed> {
    if lines == [] then Success(map[])
    else
      match ParseLines(lines[..|lines| - 1], reading)
      case Failure(e) => Failure(e)
      case Success(p) => ParseLine(p, lines[|lines| - 1], reading)
  }

  /** The last line that sets field `f`. */
  function LastLine(lines: seq<string>, f: Field): (r: Option<nat>)
    ensures r.Some? ==> r.value < |lines| && Classify(lines[r.value]) == Some(f)
    ensures r.Some? ==> forall j :: r.value < j < |lines| ==> Classify(lines[j]) != Some(f)
    ensures r.None? ==> forall j :: 0 <= j < |lines| ==> Classify(lines[j]) != Some(f)
  {
    if lines == [] then None
    else if Classify(lines[|lines| - 1]) == Some(f) then Some(|lines| - 1)
    else
      var r := LastLine(lines[..|lines| - 1], f);
      assert forall j :: 0 <= j < |lines| - 1 ==> lines[..|lines| - 1][j] == lines[j];
      r
  }

  /**
   * The last matching line wins: after a successful parse a field is set exactly
   * when some line is labelled for it, and then holds the value of the last such line.
   */
  lemma LastMatchWins(lines: seq<string>, f: Field, reading: Reading)
    requires ParseLines(lines, reading).Success?
    ensures f in ParseLines(lines, reading).value <==> LastLine(lines, f).Some?
    ensures LastLine(lines, f).Some? ==>
      LineValue(lines[LastLine(lines, f).value], f, reading).Success? &&
      ParseLines(lines, reading).value[f] == LineValue(lines[LastLine(lines, f).value], f, reading).value
  {
    var steps := Steps(lines, reading);
    ParseLinesSteps(lines, reading);
    LastLineSteps(lines, f, reading);
    StepsWin(steps, f);
    if LastLine(lines, f).Some? {
      var k := LastLine(lines, f).value;
      assert steps[k] == LineStep(lines[k], reading) == Set(f, LineValue(lines[k], f, reading));
    }
  }

  /** The steps of the lines, in order. */
  function Steps(lines: seq<string>, reading: Reading): (r: seq<Step>)
    ensures |r| == |lines|
    ensures forall k :: 0 <= k < |lines| ==> r[k] == LineStep(lines[k], reading)
  {
    if lines == [] then [] else Steps(lines[..|lines| - 1], reading) + [LineStep(lines[|lines| - 1], reading)]
  }

  /** Parsing lines is replaying their steps. */
  function ParseSteps(steps: seq<Step>): Result<Parsed> {
    if steps == [] then Success(map[])
    else
      match ParseSteps(steps[..|steps| - 1])
      case Failure(e) => Failure(e)
      case Success(p) => Apply(p, steps[|steps| - 1])
  }

  /** The last step that sets field `f`. */
  function LastSet(steps: seq<Step>, f: Field): (r: Option<nat>)
    ensures r.Some? ==> r.value < |steps| && steps[r.value].Set? && steps[r.value].field == f
  {
    if steps == [] then None
    else if steps[|steps| - 1].Set? && steps[|steps| - 1].field == f then Some(|steps| - 1)
    else LastSet(steps[..|steps| - 1], f)
  }

  lemma {:induction false} ParseLinesSteps(lines: seq<string>, reading: Reading)
    ensures ParseLines(lines, reading) == ParseSteps(Steps(lines, reading))
  {
    if lines != [] {
      var init := lines[..|lines| - 1];
      ParseLinesSteps(init, reading);
      assert Steps(lines, reading)[..|lines| - 1] == Steps(init, reading);
    }
  }

  lemma {:induction false} LastLineSteps(lines: seq<string>, f: Field, reading: Reading)
    ensures LastLine(lines, f) == LastSet(Steps(lines, reading), f)
  {
    if lines != [] {
      var init := lines[..|lines| - 1];
      LastLineSteps(init, f, reading);
      assert Steps(lines, reading)[..|lines| - 1] == Steps(init, reading);
      assert Steps(lines, reading)[|lines| - 1] == LineStep(lines[|lines| - 1], reading);
      StepField(lines[|lines| - 1], f, reading);
    }
  }

  /** A line's step sets field `f` exactly when the line is classified under `f`. */
  lemma StepField(line: string, f: Field, reading: Reading)
    ensures LineStep(line, reading).Set? && LineStep(line, reading).field == f <==> Classify(line) == Some(f)
  {
  }

  /** The field-level fact behind `LastMatchWins`, on steps. */
  lemma {:induction false} StepsWin(steps: seq<Step>, f: Field)
    requires ParseSteps(steps).Success?
    ensures f in ParseSteps(steps).value <==> LastSet(steps, f).Some?
    ensures LastSet(steps, f).Some? ==>
      steps[LastSet(steps, f).value].value.Success? && ParseSteps(steps).value[f] == steps[LastSet(steps, f).value].value.value
  {
    if steps != [] {
      var init := steps[..|steps| - 1];
      StepsWin(init, f);
      if LastSet(steps, f) == LastSet(init, f) && LastSet(init, f).Some? {
        assert steps[LastSet(init, f).value] == init[LastSet(init, f).value];
      }
    }
  }

  /** An OpenSea line without a colon: `split(":")[1]` raises on it. */
  predicate BadLine(line: string) {
    Classify(line) == Some(OpenSeaUrl) && !Contains(line, ":")
  }

  /** Under either reading, the parse fails exactly when some line labelled for OpenSea has no colon. */
  lemma {:induction false} ParseFailure(lines: seq<string>, reading: Reading)
    ensures ParseLines(lines, reading).Failure? <==> exists i :: 0 <= i < |lines| && BadLine(lines[i])
  {
    if lines != [] {
      var init, last := lines[..|lines| - 1], lines[|lines| - 1];
      ParseFailure(init, reading);
      assert forall j :: 0 <= j < |init| ==> init[j] == lines[j];
      if ParseLines(init, reading).Success? {
        LineFails(ParseLines(init, reading).value, last, reading);
        assert ParseLines(lines, reading).Failure? <==> BadLine(last);
      }
    }
  }

  /** One line makes the parse fail exactly when it is an OpenSea line without a colon. */
  lemma LineFails(p: Parsed, line: string, reading: Reading)
    ensures ParseLine(p, line, reading).Failure? <==> BadLine(line)
  {
    if Classify(line).Some? {
      LineValueFails(line, reading);
    }
  }

  // ---------------------------------------------------------------
  // The OpenSea value (a finding)
  // ---------------------------------------------------------------

  /** The first colon of `a + ":" + b` is the one after `a`. */
  lemma FirstColon(a: string, b: string)
    requires ':' !in a
    ensures IndexOf(a + ":" + b, ":") == Some(|a|)
    ensures Split(a + ":" + b, ":") == [a] + Split(b, ":")
    ensures (a + ":" + b)[|a| + 1..] == b
  {
    var s := a + ":" + b;
    IndexOfAfter(a, ":", b);
    assert s[..|a|] == a && s[|a| + 1..] == b;
  }

  /** The provider's OpenSea line is the label part, a colon, and a space before the link. */
  lemma OpenSeaLineShape(contract: string)
    ensures Erc721.OpenSeaLead + Erc721.OpenSeaUrl(contract) == OpenSeaHead + ":" + (" " + Erc721.OpenSeaUrl(contract))
    ensures ':' !in OpenSeaHead
  {
  }

  const OpenSeaHead := Erc721.OpenSeaLabel + " (after confirmation)"

  /** Splitting `a + ":" + b` on colons, the second piece is the first piece of `b`. */
  lemma SecondPieceAfter(a: string, b: string)
    requires ':' !in a
    ensures SecondPiece(a + ":" + b, ":") == Success(Split(b, ":")[0])
  {
    FirstColon(a, b);
    assert Split(a + ":" + b, ":")[1] == Split(b, ":")[0];
  }

  /** On the provider's OpenSea line the parser as written keeps only "https". */
  lemma OpenSeaTruncated(contract: string)
    ensures OpenSeaValueAsWritten(Erc721.OpenSeaLead + Erc721.OpenSeaUrl(contract)) == Success("https")
  {
    var rest := " " + Erc721.OpenSeaUrl(contract);
    OpenSeaLineShape(contract);
    SecondPieceAfter(OpenSeaHead, rest);
    AsWrittenPiece(contract);
    assert "https"[0] == 'h' && "https"[4] == 's';
    StripSpaced("https");
  }

  /** Read as intended, the same line gives the whole link back. */
  lemma OpenSeaRecovered(contract: string)
    ensures OpenSeaValue(Erc721.OpenSeaLead + Erc721.OpenSeaUrl(contract)) == Success(Erc721.OpenSeaUrl(contract))
  {
    var rest := " " + Erc721.OpenSeaUrl(contract);
    OpenSeaLineShape(contract);
    FirstColon(OpenSeaHead, rest);
    TrimmedLink(contract);
  }

  /** The piece after the first colon of the link's line ends at the colon of "https:". */
  lemma AsWrittenPiece(contract: string)
    ensures Split(" " + Erc721.OpenSeaUrl(contract), ":")[0] == " " + "https"
  {
    var tail := "//testnets.opensea.io" + "/assets/base_sepolia/" + contract + "/latest";
    assert " " + Erc721.OpenSeaUrl(contract) == (" " + "https") + ":" + tail;
    FirstColon(" " + "https", tail);
  }

  /** One leading space is all `strip` removes from a trimmed string. */
  lemma StripSpaced(s: string)
    requires s != [] && !IsSpace(s[0]) && !IsSpace(s[|s| - 1])
    ensures Strip(" " + s) == s
  {
    var t := " " + s;
    assert t[0] == ' ' && t[1..] == s;
    assert StripLeft(t) == s;
    assert StripRight(s) == s;
  }

  /** The link has no surrounding whitespace. */
  lemma TrimmedLink(contract: string)
    ensures Strip(" " + Erc721.OpenSeaUrl(contract)) == Erc721.OpenSeaUrl(contract)
  {
    var url := Erc721.OpenSeaUrl(contract);
    assert url[0] == 'h' && url[|url| - 1] == 't';
    StripSpaced(url);
  }

  /**
   * When the provider's OpenSea line is the last OpenSea line of the result, the parse as
   * written keeps "https" for the field, and the intended reading keeps the whole link.
   */
  lemma ProviderOpenSeaField(lines: seq<string>, k: nat, contract: string)
    requires k < |lines| && lines[k] == Erc721.OpenSeaLead + Erc721.OpenSeaUrl(contract)
    requires LastLine(lines, OpenSeaUrl) == Some(k)
    requires ParseLines(lines, AsWritten).Success?
    ensures Get(ParseLines(lines, AsWritten).value, OpenSeaUrl) == Some("https")
    ensures ParseLines(lines, Intended).Success?
    ensures Get(ParseLines(lines, Intended).value, OpenSeaUrl) == Some(Erc721.OpenSeaUrl(contract))
  {
    ParseFailure(lines, AsWritten);
    ParseFailure(lines, Intended);
    LastMatchWins(lines, OpenSeaUrl, AsWritten);
    LastMatchWins(lines, OpenSeaUrl, Intended);
    OpenSeaTruncated(contract);
    OpenSeaRecovered(contract);
  }

  // ---------------------------------------------------------------
  // The task table
  // ---------------------------------------------------------------

  /** One entry of `minting_tasks`. */
  datatype MintRecord = MintRecord(
    status: string, message: string,
    openseaUrl: Option<string>, imageUrl: Option<string>, ipfsUrl: Option<string>,
    transactionHash: Option<string>, transactionUrl: Option<string>)

  /** `MintNFTRequest` */
  datatype MintRequest = MintRequest(prompt: string, destination: string, nftName: Option<string>, contractAddress: Option<string>)

  /** `MintNFTResponse` */
  datatype MintResponse = MintResponse(taskId: string, status: string, message: string)

  /** `NFTStatusResponse` */
  datatype NftStatus = NftStatus(
    taskId: string, status: string, message: string,
    openseaUrl: Option<string>, imageUrl: Option<string>, ipfsUrl: Option<string>,
    transactionHash: Option<string>, transactionUrl: Option<string>)

  const QueuedMessage := "Task queued for processing"

  /** A freshly queued record: no links yet. */
  const Queued := MintRecord("queued", QueuedMessage, None, None, None, None, None)

  /** The statuses a record goes through. */
  predicate KnownStatus(status: string) {
    status == "queued" || status == "processing" || status == "completed" || status == "failed"
  }

  /** The arguments handed to `dalle_nft`: the two optional ones only when truthy. */
  function BuildArgs(request: MintRequest): (r: map<string, string>)
    ensures r.Keys == {"prompt", "destination"}
      + (if Erc721.Truthy(request.nftName) then {"nft_name"} else {})
      + (if Erc721.Truthy(request.contractAddress) then {"contract_address"} else {})
    ensures r["prompt"] == request.prompt && r["destination"] == request.destination
    ensures "nft_name" in r ==> r["nft_name"] == request.nftName.value
    ensures "contract_address" in r ==> r["contract_address"] == request.contractAddress.value
  {
    var base := map["prompt" := request.prompt, "destination" := request.destination];
    var named := if Erc721.Truthy(request.nftName) then base["nft_name" := request.nftName.value] else base;
    if Erc721.Truthy(request.contractAddress) then named["contract_address" := request.contractAddress.value] else named
  }

  /** The record while `dalle_nft` runs. */
  function Processing(rec: MintRecord): MintRecord {
    rec.(status := "processing", message := "Generating DALL-E image and minting NFT...")
  }

  /** The `except` arm: "Error minting NFT: {e}", the links left as they were. */
  function Failed(rec: MintRecord, error: string): (r: MintRecord)
    ensures r.(status := rec.status, message := rec.message) == rec
    ensures r.status == "failed" && IsPrefix("Error minting NFT: ", r.message)
  {
    var m := "Error minting NFT: " + error;
    assert m[..19] == "Error minting NFT: ";
    rec.(status := "failed", message := m)
  }

  /** The record after the background task, given what `dalle_nft` returned or raised. */
  function Finished(rec: MintRecord, outcome: Result<string>): (r: MintRecord)
    ensures r.status == "completed" || r.status == "failed"
    ensures r.status == "completed" <==> outcome.Success? && ParseLines(Split(outcome.value, "\n"), AsWritten).Success?
    ensures r.status == "failed" ==>
      r.(status := rec.status, message := rec.message) == rec && IsPrefix("Error minting NFT: ", r.message)
    ensures r.status == "completed" ==> r.message == "NFT minted successfully!"
  {
    match outcome
    case Failure(e) => Failed(rec, e)
    case Success(result) =>
      match ParseLines(Split(result, "\n"), AsWritten)
      case Failure(e) => Failed(rec, e)
      case Success(p) =>
        MintRecord("completed", "NFT minted successfully!",
          Get(p, OpenSeaUrl), Get(p, ImageUrl), Get(p, IpfsUrl), Get(p, TransactionHash), Get(p, TransactionUrl))
  }

  /**
   * Whatever text `dalle_nft` returns, including its own error messages, the task is
   * marked completed unless an OpenSea line lacks a colon.
   */
  lemma CompletedOnReturn(rec: MintRecord, result: string)
    requires forall i :: 0 <= i < |Split(result, "\n")| ==>
      Classify(Split(result, "\n")[i]) != Some(OpenSeaUrl) || Contains(Split(result, "\n")[i], ":")
    ensures Finished(rec, Success(result)).status == "completed"
  {
    ParseFailure(Split(result, "\n"), AsWritten);
  }

  /** The completed record keeps "https" as its OpenSea link when the provider's line is the last OpenSea line. */
  lemma CompletedRecordTruncated(rec: MintRecord, result: string, k: nat, contract: string)
    requires k < |Split(result, "\n")| && Split(result, "\n")[k] == Erc721.OpenSeaLead + Erc721.OpenSeaUrl(contract)
    requires LastLine(Split(result, "\n"), OpenSeaUrl) == Some(k)
    requires ParseLines(Split(result, "\n"), AsWritten).Success?
    ensures Finished(rec, Success(result)).status == "completed"
    ensures Finished(rec, Success(result)).openseaUrl == Some("https")
  {
    ProviderOpenSeaField(Split(result, "\n"), k, contract);
  }

  /** A raised exception marks the task failed and leaves its links as they were. */
  lemma FailedKeepsLinks(rec: MintRecord, error: string)
    ensures Finished(rec, Failure(error)) == rec.(status := "failed", message := "Error minting NFT: " + error)
  {
  }

  class MintService {
    /** `minting_tasks` */
    var tasks: map<string, MintRecord>

    ghost predicate Valid()
      reads this
    {
      forall id :: id in tasks ==> KnownStatus(tasks[id].status)
    }

    constructor()
      ensures Valid() && tasks == map[]
    {
      tasks := map[];
    }

    /** `mint_dalle_nft`: queue a record under a fresh id; the background task is run separately. */
    method MintDalleNft(request: MintRequest, freshId: string) returns (response: MintResponse)
      requires Valid()
      modifies this
      ensures Valid()
      ensures tasks == old(tasks)[freshId := Queued]
      ensures response == MintResponse(freshId, "queued", QueuedMessage)
    {
      tasks := tasks[freshId := Queued];
      response := MintResponse(freshId, "queued", QueuedMessage);
    }

    /** `get_nft_status`: 404 for an unknown id, else exactly the stored fields. */
    function GetNftStatus(taskId: string): (r: Result<NftStatus>)
      reads this
      ensures r.Failure? <==> taskId !in tasks
      ensures r.Failure? ==> r.error == "404: Task not found"
      ensures r.Success? ==>
        r.value.taskId == taskId && r.value.status == tasks[taskId].status &&
        r.value.message == tasks[taskId].message && r.value.openseaUrl == tasks[taskId].openseaUrl &&
        r.value.imageUrl == tasks[taskId].imageUrl && r.value.ipfsUrl == tasks[taskId].ipfsUrl &&
        r.value.transactionHash == tasks[taskId].transactionHash && r.value.transactionUrl == tasks[taskId].transactionUrl
    {
      if taskId !in tasks then Failure("404: Task not found")
      else
        var t := tasks[taskId];
        Success(NftStatus(taskId, t.status, t.message, t.openseaUrl, t.imageUrl, t.ipfsUrl, t.transactionHash, t.transactionUrl))
    }

    /** Lines 110-111: the record is marked processing before anything else happens. */
    method StartProcessing(taskId: string)
      requires Valid() && taskId in tasks
      modifies this
      ensures Valid()
      ensures tasks == old(tasks)[taskId := Processing(old(tasks)[taskId])]
    {
      tasks := tasks[taskId := Processing(tasks[taskId])];
    }

    /**
     * The result loop: each line of `result` is classified and its value kept,
     * and an exception ends the loop.
     */
    method ParseResult(result: string) returns (r: Result<Parsed>)
      ensures r == ParseLines(Split(result, "\n"), AsWritten)
    {
      var lines := Split(result, "\n");
      var p: Parsed := map[];
      var i := 0;
      while i < |lines|
        invariant 0 <= i <= |lines|
        invariant ParseLines(lines[..i], AsWritten) == Success(p)
      {
        assert lines[..i + 1][..i] == lines[..i];
        var next := ParseLine(p, lines[i], AsWritten);
        if next.Failure? {
          NoRecovery(lines, i + 1, AsWritten);
          return next;
        }
        p := next.value;
        i := i + 1;
      }
      assert lines[..i] == lines;
      r := Success(p);
    }

    /**
     * `mint_dalle_nft_task`, given what the wallet setup and `dalle_nft` return or
     * raise for the arguments it builds.
     */
    method MintDalleNftTask(taskId: string, request: MintRequest, outcome: Result<string>) returns (args: map<string, string>)
      requires Valid() && taskId in tasks
      modifies this
      ensures Valid()
      ensures args == BuildArgs(request)
      ensures tasks == old(tasks)[taskId := Finished(old(tasks)[taskId], outcome)]
    {
      StartProcessing(taskId);
      args := BuildArgs(request);
      var rec := tasks[taskId];
      if outcome.Failure? {
        tasks := tasks[taskId := Failed(rec, outcome.error)];
        return;
      }
      var parsed := ParseResult(outcome.value);
      if parsed.Failure? {
        tasks := tasks[taskId := Failed(rec, parsed.error)];
        return;
      }
      var p := parsed.value;
      tasks := tasks[taskId := MintRecord("completed", "NFT minted successfully!",
        Get(p, OpenSeaUrl), Get(p, ImageUrl), Get(p, IpfsUrl), Get(p, TransactionHash), Get(p, TransactionUrl))];
    }
  }

  /** Once a prefix of the lines fails, the whole parse fails with the same error. */
  lemma {:induction false} NoRecovery(lines: seq<string>, k: nat, reading: Reading)
    requires k <= |lines| && ParseLines(lines[..k], reading).Failure?
    ensures ParseLines(lines, reading) == ParseLines(lines[..k], reading)
    decreases |lines| - k
  {
    if k < |lines| {
      assert lines[..k + 1][..k] == lines[..k];
      NoRecovery(lines, k + 1, reading);
    } else {
      assert lines[..k] == lines;
    }
  }
}
