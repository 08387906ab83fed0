/**
  What `init_vps`, `setup_vps` and `update_vps` do to a host record before the launch, and the
  launch itself as a value: the arguments `ansible_runner.run_async` receives. Nothing is run.
 */
module Requests {

  import opened Wrappers
  import opened Values
  import opened Records
  import StrSplit

  /** A value of `extravars`: an attribute passed as it is, or the list `str.split(',')` gives. */
  datatype Arg = Scalar(v: Value) | Items(items: seq<string>)

  /**
    The arguments of `run_async`. The event, status and finished callbacks are the three
    handlers of `workflow` on the same host record.
   */
  datatype LaunchRequest = LaunchRequest(
    playbook: string,
    inventory: Value,
    extravars: map<string, Arg>,
    quiet: bool,
    tags: Option<string>,
    verbosity: int,
    privateDataDir: Option<string>,
    workflow: Workflow)

  /** `firewall_ssh_ips.split(',')` raises AttributeError when the attribute is not a str. */
  datatype PrepareError = SshIpsNotText

  /** The `tags` argument: every tag of the playbook in a debug run, the default ones otherwise. */
  function Tags(debug: bool): (tags: Option<string>)
    ensures tags.Some? <==> debug
  {
    if debug then Some("debug,all") else None
  }

  /** `firewall_ssh_ips.split(',')`. */
  function SshIps(v: Value): (r: Result<seq<string>, PrepareError>)
    ensures r.Ok? <==> v.Str?
    ensures r.Ok? ==> r.value != [] && forall k :: 0 <= k < |r.value| ==> ',' !in r.value[k]
  {
    if v.Str? then Ok(StrSplit.Split(v.s, ',')) else Err(SshIpsNotText)
  }

  /** Splitting the addresses and joining the pieces with "," gives the attribute back. */
  lemma SshIpsRoundTrip(v: Value)
    requires v.Str?
    ensures StrSplit.Join(SshIps(v).value, ',') == v.s
  {
    StrSplit.JoinSplit(v.s, ',');
  }

  /** And a list of addresses without commas, joined and split, is the list itself. */
  lemma SshIpsOfJoined(addresses: seq<string>)
    requires addresses != [] && forall k :: 0 <= k < |addresses| ==> ',' !in addresses[k]
    ensures SshIps(Str(StrSplit.Join(addresses, ','))) == Ok(addresses)
  {
    StrSplit.SplitJoin(addresses, ',');
  }

  // ---------------------------------------------------------------- the attributes before a launch

  /** `init_vps` before the launch: clears the setup status, saves, then empties the init log. */
  function InitReset(r: Record, pbgdir: string): Record {
    SaveRecord(r.(setupStatus := Null), pbgdir).(initLog := "")
  }

  /** `setup_vps` before the launch: saves, then empties the setup log. */
  function SetupReset(r: Record, pbgdir: string): Record {
    SaveRecord(r, pbgdir).(setupLog := "")
  }

  /** `update_vps` before the launch: clears the update status, saves, then empties the update log. */
  function UpdateReset(r: Record, pbgdir: string): Record {
    SaveRecord(r.(updateStatus := Null), pbgdir).(updateLog := "")
  }

  /**
    Each preparation differs from a plain `save` in exactly its own fields: putting those back
    gives the record a plain `save` leaves, and putting back the two paths `save` re-derives as
    well gives the record as it was. `init_vps` clears the setup status, not its own.
   */
  lemma ResetsTouchOnlyTheirFields(r: Record, pbgdir: string)
    ensures InitReset(r, pbgdir).(setupStatus := r.setupStatus, initLog := r.initLog) == SaveRecord(r, pbgdir)
    ensures SetupReset(r, pbgdir).(setupLog := r.setupLog) == SaveRecord(r, pbgdir)
    ensures UpdateReset(r, pbgdir).(updateStatus := r.updateStatus, updateLog := r.updateLog) == SaveRecord(r, pbgdir)
    ensures InitReset(r, pbgdir).(setupStatus := r.setupStatus, initLog := r.initLog, path := r.path, privatDataDir := r.privatDataDir) == r
    ensures SetupReset(r, pbgdir).(setupLog := r.setupLog, path := r.path, privatDataDir := r.privatDataDir) == r
    ensures UpdateReset(r, pbgdir).(updateStatus := r.updateStatus, updateLog := r.updateLog, path := r.path, privatDataDir := r.privatDataDir) == r
    ensures InitReset(r, pbgdir).setupStatus == Null && InitReset(r, pbgdir).initLog == ""
    ensures SetupReset(r, pbgdir).setupLog == ""
    ensures UpdateReset(r, pbgdir).updateStatus == Null && UpdateReset(r, pbgdir).updateLog == ""
  {
  }

  /** Running `init_vps` again leaves `is_initialized` as it was: the init status is kept. */
  lemma ReinitKeepsInitialized(r: Record, pbgdir: string)
    ensures IsInitialized(InitReset(r, pbgdir)) <==> IsInitialized(r)
    ensures ConfigOf(InitReset(r, pbgdir)) == ConfigOf(r.(setupStatus := Null))
  {
  }

  // ---------------------------------------------------------------- the requests

  const InitKeys: set<string> := {"hostname", "ip", "initial_root_pw", "root_pw", "user", "user_pw", "debug"}
  const SetupKeys: set<string> := {
    "hostname", "user", "user_pw", "swap_size", "bucket", "coinmarketcap_api_key",
    "firewall", "firewall_ssh_port", "firewall_ssh_ips", "debug"}
  const UpdateKeys: set<string> := {
    "hostname", "user", "user_pw", "firewall", "firewall_ssh_port", "firewall_ssh_ips", "reboot", "debug"}

  /** The launch of `init_vps`: the init playbook, with the root passwords to set up the account. */
  function InitRequest(r: Record, debug: bool, pbgdir: string): (req: LaunchRequest)
    ensures req.extravars.Keys == InitKeys
    ensures req.workflow == Init && req.inventory == r.hostname && req.privateDataDir == r.privatDataDir
  {
    LaunchRequest(
      pbgdir + "/vps-init.yml", r.hostname,
      map[
        "hostname" := Scalar(r.hostname), "ip" := Scalar(r.ip),
        "initial_root_pw" := Scalar(r.initialRootPw), "root_pw" := Scalar(r.rootPw),
        "user" := Scalar(r.user), "user_pw" := Scalar(r.userPw), "debug" := Scalar(Bool(debug))],
      true, Tags(debug), 1, r.privatDataDir, Init)
  }

  /** The launch of `setup_vps`; fails when the allowed SSH addresses are not text. */
  function SetupRequest(r: Record, debug: bool, pbgdir: string): (req: Result<LaunchRequest, PrepareError>)
    ensures req.Ok? <==> r.firewallSshIps.Str?
    ensures req.Ok? ==> req.value.extravars.Keys == SetupKeys && req.value.workflow == Setup
  {
    match SshIps(r.firewallSshIps)
    case Err(e) => Err(e)
    case Ok(ips) =>
      Ok(LaunchRequest(
        pbgdir + "/vps-setup.yml", r.hostname,
        map[
          "hostname" := Scalar(r.hostname), "user" := Scalar(r.user), "user_pw" := Scalar(r.userPw),
          "swap_size" := Scalar(r.swap), "bucket" := Scalar(r.bucket),
          "coinmarketcap_api_key" := Scalar(r.coinmarketcapApiKey),
          "firewall" := Scalar(r.firewall), "firewall_ssh_port" := Scalar(r.firewallSshPort),
          "firewall_ssh_ips" := Items(ips), "debug" := Scalar(Bool(debug))],
        true, Tags(debug), 1, r.privatDataDir, Setup))
  }

  /** The launch of `update_vps`: the playbook named by the record's command. */
  function UpdateRequest(r: Record, debug: bool, pbgdir: string): (req: Result<LaunchRequest, PrepareError>)
    ensures req.Ok? <==> r.firewallSshIps.Str?
    ensures req.Ok? ==> req.value.extravars.Keys == UpdateKeys && req.value.workflow == Update
  {
    match SshIps(r.firewallSshIps)
    case Err(e) => Err(e)
    case Ok(ips) =>
      Ok(LaunchRequest(
        pbgdir + "/" + Display(r.command) + ".yml", r.hostname,
        map[
          "hostname" := Scalar(r.hostname), "user" := Scalar(r.user), "user_pw" := Scalar(r.userPw),
          "firewall" := Scalar(r.firewall), "firewall_ssh_port" := Scalar(r.firewallSshPort),
          "firewall_ssh_ips" := Items(ips), "reboot" := Scalar(r.reboot), "debug" := Scalar(Bool(debug))],
        true, Tags(debug), 1, r.privatDataDir, Update))
  }

  /** In every launch the tags ask for a debug run exactly when the `debug` variable is true. */
  lemma TagsAgreeWithDebug(r: Record, debug: bool, pbgdir: string)
    ensures var req := InitRequest(r, debug, pbgdir);
      req.extravars["debug"] == Scalar(Bool(debug)) && (req.tags == Some("debug,all") <==> debug)
    ensures SetupRequest(r, debug, pbgdir).Ok? ==> var req := SetupRequest(r, debug, pbgdir).value;
      req.extravars["debug"] == Scalar(Bool(debug)) && (req.tags == Some("debug,all") <==> debug)
    ensures UpdateRequest(r, debug, pbgdir).Ok? ==> var req := UpdateRequest(r, debug, pbgdir).value;
      req.extravars["debug"] == Scalar(Bool(debug)) && (req.tags == Some("debug,all") <==> debug)
  {
  }

  /**
    The addresses a setup or update run receives are the pieces of the record's attribute:
    joined with "," they give it back.
   */
  lemma LaunchedAddressesJoinBack(r: Record, debug: bool, pbgdir: string)
    requires r.firewallSshIps.Str?
    ensures var args := SetupRequest(r, debug, pbgdir).value.extravars;
      args["firewall_ssh_ips"].Items? && StrSplit.Join(args["firewall_ssh_ips"].items, ',') == r.firewallSshIps.s
    ensures var args := UpdateRequest(r, debug, pbgdir).value.extravars;
      args["firewall_ssh_ips"].Items? && StrSplit.Join(args["firewall_ssh_ips"].items, ',') == r.firewallSshIps.s
  {
    SshIpsRoundTrip(r.firewallSshIps);
  }

  /** Only the init run is given the root passwords; no run is given anything the record does not hold. */
  lemma OnlyInitSeesRootPasswords(r: Record, debug: bool, pbgdir: string)
    ensures InitRequest(r, debug, pbgdir).extravars["root_pw"] == Scalar(r.rootPw)
    ensures InitRequest(r, debug, pbgdir).extravars["initial_root_pw"] == Scalar(r.initialRootPw)
    ensures SetupRequest(r, debug, pbgdir).Ok? ==>
      "root_pw" !in SetupRequest(r, debug, pbgdir).value.extravars &&
      "initial_root_pw" !in SetupRequest(r, debug, pbgdir).value.extravars
    ensures UpdateRequest(r, debug, pbgdir).Ok? ==>
      "root_pw" !in UpdateRequest(r, debug, pbgdir).value.extravars &&
      "initial_root_pw" !in UpdateRequest(r, debug, pbgdir).value.extravars
  {
    assert "root_pw" !in SetupKeys && "initial_root_pw" !in SetupKeys;
    assert "root_pw" !in UpdateKeys && "initial_root_pw" !in UpdateKeys;
  }
}
