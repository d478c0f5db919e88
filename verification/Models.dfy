/** The tables of the inventory database (app/models.py) and the session that holds them. */
module Models {
  import opened Basics

  type Id = nat
  // Seconds; every column is naive UTC.
  type Time = int

  const DAY: int := 86400

  /** One device as a collector reported it (discovery/normalize.py). */
  datatype Device = Device(
    mac: Text, ip: Text, hostname: Text, assetType: Text, vendor: Text,
    vlan: Option<int>, networkName: Text, connectionType: Text,
    model: Text, firmware: Text, serial: Text, modelNumber: Text, modelIdentifier: Text,
    source: string, services: seq<ServiceReport>, extra: map<string, string>)

  // `protocol` is None when the report has no such key.
  datatype ServiceReport = ServiceReport(
    port: int, protocol: Text, product: Text, version: Text, banner: Text)

  datatype Lifecycle = Discovered | Active | Decommissioned

  datatype Asset = Asset(
    assetType: string, hostname: Text, hostnameLocked: bool, hostnameSource: Text,
    vendor: Text, vendorLocked: bool, model: Text, firmware: Text,
    serial: Text, modelNumber: Text, modelIdentifier: Text, identityLocked: bool,
    owner: Text, lifecycle: Lifecycle, internetFacing: bool, source: Text,
    firstSeen: Time, lastSeen: Time)

  datatype Interface = Interface(
    assetId: Id, mac: Text, ip: Text, vlan: Option<int>, networkName: Text,
    connectionType: Text, vendor: Text, lastSeen: Time)

  datatype Service = Service(
    assetId: Id, port: int, protocol: string, product: Text, version: Text, banner: Text,
    lastSeen: Time)

  datatype Relationship = Relationship(assetId: Id, relatedId: Id, kind: string, detail: Text)

  datatype Dismissal = Dismissal(assetA: Id, assetB: Id, fingerprint: string, dismissedAt: Time)

  datatype Severity = Critical | High | Medium | Low
  datatype Exposure = InternetFacing | Internal
  datatype Status = Open | Mitigated | Accepted | Closed

  datatype Finding = Finding(
    assetId: Id, vulnerability: Option<Id>, severity: Severity, exposure: Exposure,
    detected: Time, due: Option<Time>, status: Status, closed: Option<Time>)

  // An AssetNote or a ProbeResult: an append-only row of which only the owner matters here.
  datatype LogRow = LogRow(assetId: Id, author: string, body: string)

  datatype Proposal = Proposal(assetId: Id, origin: Option<Id>, payload: string, status: string)

  datatype Provider = Anthropic | OpenRouter

  // `cost` is in millionths of a dollar, the precision of the column; None is an unpriced call.
  datatype Usage = Usage(at: Time, assetId: Option<Id>, provider: Provider, cost: Option<int>)

  datatype Role = User | Assistant

  datatype Kind =
    | Words(text: string)
    | Picture(title: Text, data: string)
    | Document(title: Text, data: string)
    | ToolUse(id: string, name: string, input: string)
    | ToolResult(toolUseId: string, output: string, isError: bool)
    | Thinking(signature: string)

  // `parsedOutput`: the response-only field is present.  `cacheMark`: cache_control is present.
  datatype Block = Block(kind: Kind, parsedOutput: bool, cacheMark: bool)

  datatype ChatMessage = ChatMessage(assetId: Id, role: Role, content: seq<Block>)

  ghost predicate Below<R>(t: map<Id, R>, next: Id) {
    forall k :: k in t ==> k < next
  }

  /** The database as one session sees it: every SELECT sees the session's own earlier writes.
      Tables whose rows are looked up or deleted one by one are maps from the primary key; tables
      that are only read in order of creation are sequences in that order. */
  class Session {
    var assets: map<Id, Asset>
    var interfaces: map<Id, Interface>
    var services: map<Id, Service>
    var findings: map<Id, Finding>
    var proposals: map<Id, Proposal>
    var relationships: map<Id, Relationship>
    var dismissals: map<Id, Dismissal>
    var notes: seq<LogRow>
    var probeResults: seq<LogRow>
    var chat: seq<ChatMessage>
    var usage: seq<Usage>
    // the kill switch (AppSetting)
    var assistantEnabled: bool

    // the primary-key sequences: values never handed out before
    var nextAsset: Id
    var nextInterface: Id
    var nextService: Id
    var nextRelationship: Id
    var nextDismissal: Id
    var nextFinding: Id

    ghost predicate KeysBelowSequences()
      reads `assets, `nextAsset, `interfaces, `nextInterface, `services, `nextService
      reads `relationships, `nextRelationship, `dismissals, `nextDismissal, `findings, `nextFinding
    {
      && Below(assets, nextAsset) && Below(interfaces, nextInterface) && Below(services, nextService)
      && Below(relationships, nextRelationship) && Below(dismissals, nextDismissal) && Below(findings, nextFinding)
    }

    constructor ()
      ensures assets == map[] && interfaces == map[] && services == map[] && findings == map[]
      ensures proposals == map[] && relationships == map[] && dismissals == map[]
      ensures notes == [] && probeResults == [] && chat == [] && usage == []
      ensures KeysBelowSequences()
    {
      assets, interfaces, services, findings := map[], map[], map[], map[];
      proposals, relationships, dismissals := map[], map[], map[];
      notes, probeResults, chat, usage := [], [], [], [];
      assistantEnabled := true;
      nextAsset, nextInterface, nextService := 1, 1, 1;
      nextRelationship, nextDismissal, nextFinding := 1, 1, 1;
    }
  }
}
