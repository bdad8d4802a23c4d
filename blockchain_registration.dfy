/** The blockchain registration session: a wallet connection, a selected
    file, and an in-memory list of registration records, newest first. */
module Registration {
  import opened Common
  import opened Strings
  import opened Draws
  import Watermark

  /** One registered document: the proof's fields with the file's metadata
      and the visibility chosen at registration. */
  datatype BlockchainRecord = BlockchainRecord(
    id: string,
    fileName: string,
    fileType: string,
    hash: string,
    timestamp: string,
    blockNumber: int,
    transactionId: string,
    isPublic: bool)

  /** The record built for a registration (lines 129-138); `id` is the
      random base-36 string the source draws. */
  function RecordOf(id: string, file: FileData, proof: Watermark.BlockchainProof, isPublic: bool): (r: BlockchainRecord)
    ensures r.hash == proof.hash && r.timestamp == proof.timestamp
    ensures r.blockNumber == proof.blockNumber && r.transactionId == proof.transactionId
    ensures r.fileName == file.name && r.fileType == file.mimeType
    ensures r.isPublic == isPublic && r.id == id
  {
    BlockchainRecord(id, file.name, file.mimeType, proof.hash, proof.timestamp,
                     proof.blockNumber, proof.transactionId, isPublic)
  }

  /** A record as registration produces it: well-formed identifiers and a
      block number in the simulated range. */
  predicate WellFormedRecord(r: BlockchainRecord) {
    Watermark.IsHexId(r.hash) && Watermark.IsHexId(r.transactionId)
    && 17000000 <= r.blockNumber < 17500000
  }

  /** What `window.ethereum.request({ method: 'eth_requestAccounts' })` gave:
      no provider at all, a rejected request, or a list of accounts. */
  datatype WalletReply = NoProvider | RequestFailed | Accounts(addresses: seq<string>)

  /** Which toast `connectMetaMask` ends with. */
  datatype ConnectOutcome = NotInstalled | ConnectFailed | Connected

  const PlaceholderAddress := "0x71C...4E29"

  /** The wallet address as the header shows it: its first 6 characters,
      '...', its last 4; a placeholder when there is no address. */
  function DisplayAddress(address: string): (shown: string)
    ensures address == "" ==> shown == PlaceholderAddress
  {
    if address != "" then
      Substring(address, 0, 6) + "..." + SubstringFrom(address, |address| - 4)
    else PlaceholderAddress
  }

  /** For any non-empty address: at most 6 leading and 4 trailing characters
      around the ellipsis (the whole address on each side when it is shorter). */
  lemma DisplayAddressParts(address: string)
    requires address != ""
    ensures DisplayAddress(address) ==
      address[..if |address| < 6 then |address| else 6] + "..."
      + address[if |address| < 4 then 0 else |address| - 4..]
  {
  }

  /** A full-length address (at least 10 characters) shows as 13 characters
      that begin with its first 6 and end with its last 4. */
  lemma DisplayAddressOfLongAddress(address: string)
    requires |address| >= 10
    ensures |DisplayAddress(address)| == 13
    ensures DisplayAddress(address)[..6] == address[..6]
    ensures DisplayAddress(address)[6..9] == "..."
    ensures DisplayAddress(address)[9..] == address[|address| - 4..]
  {
  }

  /** The hash column of the records table: the first 12 characters. */
  function HashPreview(hash: string): string {
    Substring(hash, 0, 12)
  }

  /** For a generated hash the preview is '0x' and its first 10 hex digits. */
  lemma HashPreviewOfHexId(hash: string)
    requires Watermark.IsHexId(hash)
    ensures HashPreview(hash) == hash[..12]
    ensures |HashPreview(hash)| == 12 && HashPreview(hash)[..2] == "0x"
  {
  }

  class BlockchainRegistration {
    var isConnected: bool
    var walletAddress: string
    var file: Option<FileData>
    var isRegistering: bool
    var isPublic: bool
    var registrationComplete: bool
    var blockchainProof: Option<Watermark.BlockchainProof>
    var records: seq<BlockchainRecord>

    /** Between handlers no registration is in flight; a completed
        registration shows the proof of the newest record, which was made
        from the current file; every record has well-formed identifiers. */
    ghost predicate Valid()
      reads this
    {
      && !isRegistering
      && (registrationComplete <==> blockchainProof.Some?)
      && (registrationComplete ==>
            && file.Some? && |records| > 0
            && records[0] == RecordOf(records[0].id, file.value, blockchainProof.value, records[0].isPublic))
      && (forall i :: 0 <= i < |records| ==> WellFormedRecord(records[i]))
    }

    constructor ()
      ensures Valid()
      ensures !isConnected && walletAddress == "" && file.None? && !isPublic
      ensures !registrationComplete && blockchainProof.None? && records == []
    {
      isConnected := false;
      walletAddress := "";
      file := None;
      isRegistering := false;
      isPublic := false;
      registrationComplete := false;
      blockchainProof := None;
      records := [];
    }

    /** `connectMetaMask`: a non-empty account list connects with its first
        account; no provider, a failed request or an empty list change
        nothing. */
    method ConnectMetaMask(reply: WalletReply) returns (outcome: ConnectOutcome)
      requires Valid()
      modifies this
      ensures Valid()
      ensures outcome == NotInstalled <==> reply == NoProvider
      ensures outcome == Connected <==> reply.Accounts? && |reply.addresses| > 0
      ensures outcome == Connected ==> isConnected && walletAddress == reply.addresses[0]
      ensures outcome != Connected ==>
        isConnected == old(isConnected) && walletAddress == old(walletAddress)
      ensures file == old(file) && records == old(records) && isPublic == old(isPublic)
      ensures registrationComplete == old(registrationComplete) && blockchainProof == old(blockchainProof)
    {
      match reply
      case NoProvider =>
        outcome := NotInstalled;
      case RequestFailed =>
        outcome := ConnectFailed;
      case Accounts(addresses) =>
        if |addresses| > 0 {
          walletAddress := addresses[0];
          isConnected := true;
          outcome := Connected;
        } else {
          outcome := ConnectFailed;
        }
    }

    /** `disconnectWallet`. */
    method DisconnectWallet()
      requires Valid()
      modifies this
      ensures Valid()
      ensures !isConnected && walletAddress == ""
      ensures file == old(file) && records == old(records) && isPublic == old(isPublic)
      ensures registrationComplete == old(registrationComplete) && blockchainProof == old(blockchainProof)
    {
      isConnected := false;
      walletAddress := "";
    }

    /** `handleFileSelect`: a new file clears the finished registration but
        keeps the records. */
    method HandleFileSelect(selected: FileData)
      requires Valid()
      modifies this
      ensures Valid()
      ensures file == Some(selected) && !registrationComplete && blockchainProof.None?
      ensures records == old(records) && isPublic == old(isPublic)
      ensures isConnected == old(isConnected) && walletAddress == old(walletAddress)
    {
      file := Some(selected);
      registrationComplete := false;
      blockchainProof := None;
    }

    /** The "publicly verifiable" checkbox. */
    method SetPublic(checked: bool)
      requires Valid()
      modifies this
      ensures Valid()
      ensures isPublic == checked
      ensures file == old(file) && records == old(records)
      ensures registrationComplete == old(registrationComplete) && blockchainProof == old(blockchainProof)
      ensures isConnected == old(isConnected) && walletAddress == old(walletAddress)
    {
      isPublic := checked;
    }

    /** `registerOnBlockchain`: without a file nothing changes; otherwise a
        proof is generated, stored, and one record made from it is put at
        the front of the list. `recordId`, `timestamp` and the draws stand
        for the source's random id, clock and `Math.random()` values. */
    method RegisterOnBlockchain(recordId: string, timestamp: string,
                                hashDraws: seq<real>, txDraws: seq<real>, blockDraw: real)
      returns (registered: bool)
      requires Valid()
      requires |hashDraws| == Watermark.HexDigitCount && AllDraws(hashDraws)
      requires |txDraws| == Watermark.HexDigitCount && AllDraws(txDraws)
      requires IsDraw(blockDraw)
      modifies this
      ensures Valid() && !isRegistering
      ensures registered <==> old(file).Some?
      ensures !registered ==>
        records == old(records) && registrationComplete == old(registrationComplete)
        && blockchainProof == old(blockchainProof)
      ensures registered ==>
        && registrationComplete
        && blockchainProof.Some?
        && blockchainProof.value.hash == Watermark.HexId(hashDraws)
        && blockchainProof.value.transactionId == Watermark.HexId(txDraws)
        && blockchainProof.value.timestamp == timestamp
        && records == [RecordOf(recordId, file.value, blockchainProof.value, isPublic)] + old(records)
      ensures file == old(file) && isPublic == old(isPublic)
      ensures isConnected == old(isConnected) && walletAddress == old(walletAddress)
    {
      if file.None? {
        return false;
      }
      isRegistering := true;
      var proof := Watermark.GenerateBlockchainProof(hashDraws, txDraws, timestamp, blockDraw);
      blockchainProof := Some(proof);
      registrationComplete := true;
      var newRecord := RecordOf(recordId, file.value, proof, isPublic);
      records := [newRecord] + records;
      isRegistering := false;
      registered := true;
    }
  }
}
