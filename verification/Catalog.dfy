/** The closed vocabularies of the relay protocol: capability profiles, mutating verbs, limits. */
module Catalog {

  datatype Profile = ReadOnly | ReadWrite | FullAgent

  const READ_ONLY_CAPABILITIES: set<string> := {
    "connector_health", "files_list", "files_stat", "files_search", "files_read",
    "files_download", "skills_list", "mcp_list_servers", "mcp_health", "skills_health"
  }

  const READ_WRITE_CAPABILITIES: set<string> := READ_ONLY_CAPABILITIES + {
    "files_write", "files_delete", "files_move", "files_mkdir", "files_upload", "skills_materialize"
  }

  const FULL_AGENT_CAPABILITIES: set<string> := READ_WRITE_CAPABILITIES + {
    "terminal_execute", "ssh_execute", "ssh_list_profiles", "skills_execute", "mcp_call"
  }

  const MUTATING_RELAY_TOOLS: set<string> := {
    "files.write", "files.delete", "files.move", "files.mkdir", "files.upload",
    "terminal.execute", "ssh.execute", "skills.materialize", "skills.execute", "mcp.call"
  }

  const RESULT_MAX_BYTES: nat := 1_048_576
  const HEARTBEAT_INTERVAL_SECONDS: int := 15
  const INSTANCE_STALE_MULTIPLIER: int := 5
  const CHALLENGE_TTL_SECONDS: int := 120

  function CapabilitiesFor(profile: Profile): set<string> {
    match profile
    case ReadOnly => READ_ONLY_CAPABILITIES
    case ReadWrite => READ_WRITE_CAPABILITIES
    case FullAgent => FULL_AGENT_CAPABILITIES
  }

  /** Relay verbs are dotted, capabilities use underscores. */
  function CapabilityOf(tool: string): (capability: string)
    ensures |capability| == |tool|
    ensures forall i :: 0 <= i < |tool| ==> capability[i] == (if tool[i] == '.' then '_' else tool[i])
  {
    seq(|tool|, i requires 0 <= i < |tool| => if tool[i] == '.' then '_' else tool[i])
  }

  function InstanceStaleSeconds(heartbeatTimeoutSeconds: int): int {
    if heartbeatTimeoutSeconds > HEARTBEAT_INTERVAL_SECONDS * INSTANCE_STALE_MULTIPLIER
    then heartbeatTimeoutSeconds
    else HEARTBEAT_INTERVAL_SECONDS * INSTANCE_STALE_MULTIPLIER
  }

  // ------------------------------------------------------------------------ what the profiles grant

  /** Each profile grants all that the one before it grants, and more. */
  lemma ProfilesFormChain()
    ensures CapabilitiesFor(ReadOnly) < CapabilitiesFor(ReadWrite) < CapabilitiesFor(FullAgent)
  {
    assert "files_mkdir" in CapabilitiesFor(ReadWrite) && "mcp_call" in CapabilitiesFor(FullAgent);
    assert forall name :: name in READ_ONLY_CAPABILITIES ==> name != "files_mkdir";
    assert forall name :: name in READ_WRITE_CAPABILITIES ==> |name| != 8;
  }

  /** Verbs that reach beyond files: shells, scripts and other servers. */
  predicate ReachesBeyondFiles(tool: string) {
    tool in {"terminal.execute", "ssh.execute", "skills.execute", "mcp.call"}
  }

  /** Verbs that change files. */
  predicate ChangesFiles(tool: string) {
    tool in {"files.write", "files.delete", "files.move", "files.mkdir", "files.upload", "skills.materialize"}
  }

  lemma BeyondFilesNeedsFullAgent(tool: string, profile: Profile)
    requires ReachesBeyondFiles(tool)
    ensures CapabilityOf(tool) in CapabilitiesFor(profile) <==> profile == FullAgent
  {
    var name := CapabilityOf(tool);
    assert tool == "terminal.execute" ==> name == "terminal_execute";
    assert tool == "ssh.execute" ==> name == "ssh_execute";
    assert tool == "skills.execute" ==> name == "skills_execute";
    assert tool == "mcp.call" ==> name == "mcp_call";
    assert name[0] == tool[0] && name[1] == tool[1] && name[4] == if tool[4] == '.' then '_' else tool[4];
  }

  /** Names of equal length differ in their first or seventh letter. */
  lemma ChangingFilesIsNoReading(tool: string)
    requires ChangesFiles(tool)
    ensures CapabilityOf(tool) !in READ_ONLY_CAPABILITIES
  {
    var name := CapabilityOf(tool);
    assert name[0] == tool[0] && name[6] == if tool[6] == '.' then '_' else tool[6];
  }

  lemma ChangingFilesIsWriting(tool: string)
    requires ChangesFiles(tool)
    ensures CapabilityOf(tool) in READ_WRITE_CAPABILITIES
  {
    var name := CapabilityOf(tool);
    assert tool == "files.write" ==> name == "files_write";
    assert tool == "files.delete" ==> name == "files_delete";
    assert tool == "files.move" ==> name == "files_move";
    assert tool == "files.mkdir" ==> name == "files_mkdir";
    assert tool == "files.upload" ==> name == "files_upload";
    assert tool == "skills.materialize" ==> name == "skills_materialize";
  }

  lemma ChangingFilesNeedsWrite(tool: string, profile: Profile)
    requires ChangesFiles(tool)
    ensures CapabilityOf(tool) in CapabilitiesFor(profile) <==> profile == ReadWrite || profile == FullAgent
  {
    ChangingFilesIsNoReading(tool);
    ChangingFilesIsWriting(tool);
  }

  /** The mutating verbs are these two kinds and no others. */
  lemma MutatingVerbs(tool: string)
    ensures tool in MUTATING_RELAY_TOOLS <==> ReachesBeyondFiles(tool) || ChangesFiles(tool)
  {
  }

  /** Verbs that only look are granted by every profile. */
  lemma LookingIsGranted(tool: string, profile: Profile)
    requires tool in {"files.list", "files.stat", "files.search", "files.read", "files.download"}
    ensures CapabilityOf(tool) in CapabilitiesFor(profile)
  {
    var name := CapabilityOf(tool);
    assert tool == "files.list" ==> name == "files_list";
    assert tool == "files.stat" ==> name == "files_stat";
    assert tool == "files.search" ==> name == "files_search";
    assert tool == "files.read" ==> name == "files_read";
    assert tool == "files.download" ==> name == "files_download";
  }
}
