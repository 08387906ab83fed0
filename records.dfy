/**
  The state of one VPS host record as a value, and the pure specifications that the VPS
  methods are proved against: the constructor defaults, what `load` copies in, the document
  `save` writes, the readiness predicates and the per-workflow fields the callbacks touch.
 */
module Records {

  import opened Wrappers
  import opened Values
  import Files

  /** The three provisioning workflows, each with its own log, status and last-run stamp. */
  datatype Workflow = Init | Setup | Update

  /** The attributes of a `VPS` object; `hostname` is the `_hostname` attribute. */
  datatype Record = Record(
    hostname: Value,
    path: Option<string>,
    privatDataDir: Option<string>,
    ip: Value,
    rootPw: Value,
    initialRootPw: Value,
    user: Value,
    userPw: Value,
    swap: Value,
    lastInit: Value,
    lastSetup: Value,
    lastUpdate: Value,
    initStatus: Value,
    setupStatus: Value,
    updateStatus: Value,
    command: Value,
    commandText: Value,
    reboot: Value,
    initLog: string,
    setupLog: string,
    updateLog: string,
    bucket: Value,
    coinmarketcapApiKey: Value,
    firewall: Value,
    firewallSshPort: Value,
    firewallSshIps: Value)

  /** What `VPS()` starts with; `user` is the login name of the process owner. */
  function Defaults(user: string): (r: Record)
    ensures r.path.None? && r.hostname == Null && r.user == Str(user)
    ensures r.initLog == r.setupLog == r.updateLog == ""
  {
    Record(
      hostname := Null, path := None, privatDataDir := None,
      ip := Null, rootPw := Null, initialRootPw := Null,
      user := Str(user), userPw := Null, swap := Str("2.5G"),
      lastInit := Null, lastSetup := Null, lastUpdate := Null,
      initStatus := Null, setupStatus := Null, updateStatus := Null,
      command := Str("unknown"), commandText := Str("unknown"), reboot := Bool(false),
      initLog := "", setupLog := "", updateLog := "",
      bucket := Null, coinmarketcapApiKey := Null,
      firewall := Bool(true), firewallSshPort := Int(22), firewallSshIps := Str(""))
  }

  /** The directory that holds one sub-directory per host. */
  function HostsRoot(pbgdir: string): string {
    pbgdir + "/data/vpsmanager/hosts"
  }

  /**
    The directory of a host: `Path(f'{PBGDIR}/data/vpsmanager/hosts/{name}')`. `Path` drops a
    trailing '/', so the empty name gives the hosts root itself.
   */
  function HostDir(pbgdir: string, name: string): (dir: string)
    ensures name == "" ==> dir == HostsRoot(pbgdir)
    ensures name != "" ==> Files.Within(dir, HostsRoot(pbgdir)) && dir != HostsRoot(pbgdir)
  {
    if name == "" then HostsRoot(pbgdir) else HostsRoot(pbgdir) + "/" + name
  }

  /** `f'{self.path}'`: the text of a path, "None" when there is none. */
  function PathText(p: Option<string>): string {
    if p.Some? then p.value else "None"
  }

  // ---------------------------------------------------------------- load and save

  /** The value under key, or the current value when the key is absent. */
  function Pick(c: Json, key: string, current: Value): (v: Value)
  {
    if key in c then c[key] else current
  }

  /** `load`: each of the fifteen keys it knows replaces its attribute when present. */
  function LoadInto(r: Record, c: Json): Record {
    Record(
      Pick(c, "_hostname", r.hostname), r.path, r.privatDataDir,
      Pick(c, "ip", r.ip), r.rootPw, r.initialRootPw,
      Pick(c, "user", r.user), r.userPw, Pick(c, "swap", r.swap),
      Pick(c, "last_init", r.lastInit), Pick(c, "last_setup", r.lastSetup),
      Pick(c, "last_update", r.lastUpdate),
      Pick(c, "init_status", r.initStatus), Pick(c, "setup_status", r.setupStatus),
      Pick(c, "update_status", r.updateStatus),
      Pick(c, "command", r.command), Pick(c, "command_text", r.commandText), r.reboot,
      r.initLog, r.setupLog, r.updateLog,
      r.bucket, r.coinmarketcapApiKey,
      Pick(c, "firewall", r.firewall), Pick(c, "firewall_ssh_port", r.firewallSshPort),
      Pick(c, "firewall_ssh_ips", r.firewallSshIps))
  }

  /** The keys of the document `save` writes. */
  const SavedKeys: set<string> := {
    "_hostname", "ip", "user", "swap", "bucket", "coinmarketcap_api_key",
    "last_setup", "last_init", "last_update", "setup_status", "init_status", "update_status",
    "firewall", "firewall_ssh_port", "firewall_ssh_ips", "command", "command_text"}

  /** The document `save` writes. */
  function ConfigOf(r: Record): (c: Json)
    ensures c.Keys == SavedKeys
  {
    map[
      "_hostname" := r.hostname, "ip" := r.ip, "user" := r.user, "swap" := r.swap,
      "bucket" := r.bucket, "coinmarketcap_api_key" := r.coinmarketcapApiKey,
      "last_setup" := r.lastSetup, "last_init" := r.lastInit, "last_update" := r.lastUpdate,
      "setup_status" := r.setupStatus, "init_status" := r.initStatus,
      "update_status" := r.updateStatus, "firewall" := r.firewall,
      "firewall_ssh_port" := r.firewallSshPort, "firewall_ssh_ips" := r.firewallSshIps,
      "command" := r.command, "command_text" := r.commandText]
  }

  /** The passwords, `reboot` and the logs are not among the keys of the host file. */
  lemma SecretsNeverSaved()
    ensures "root_pw" !in SavedKeys && "initial_root_pw" !in SavedKeys && "user_pw" !in SavedKeys
    ensures "reboot" !in SavedKeys && "init_log" !in SavedKeys && "setup_log" !in SavedKeys
    ensures "update_log" !in SavedKeys
  {
  }

  /**
    `load` changes only the attributes whose key is present: every other attribute keeps
    the value it had (a constructor default, for a fresh object).
   */
  lemma LoadChangesOnlyPresentKeys(r: Record, c: Json)
    ensures var l := LoadInto(r, c);
      && ("_hostname" in c ==> l.hostname == c["_hostname"]) && ("_hostname" !in c ==> l.hostname == r.hostname)
      && ("ip" in c ==> l.ip == c["ip"]) && ("ip" !in c ==> l.ip == r.ip)
      && ("user" in c ==> l.user == c["user"]) && ("user" !in c ==> l.user == r.user)
      && ("swap" in c ==> l.swap == c["swap"]) && ("swap" !in c ==> l.swap == r.swap)
      && ("last_init" in c ==> l.lastInit == c["last_init"]) && ("last_init" !in c ==> l.lastInit == r.lastInit)
      && ("last_setup" in c ==> l.lastSetup == c["last_setup"]) && ("last_setup" !in c ==> l.lastSetup == r.lastSetup)
      && ("last_update" in c ==> l.lastUpdate == c["last_update"]) && ("last_update" !in c ==> l.lastUpdate == r.lastUpdate)
      && ("init_status" in c ==> l.initStatus == c["init_status"]) && ("init_status" !in c ==> l.initStatus == r.initStatus)
      && ("setup_status" in c ==> l.setupStatus == c["setup_status"]) && ("setup_status" !in c ==> l.setupStatus == r.setupStatus)
      && ("update_status" in c ==> l.updateStatus == c["update_status"]) && ("update_status" !in c ==> l.updateStatus == r.updateStatus)
      && ("firewall" in c ==> l.firewall == c["firewall"]) && ("firewall" !in c ==> l.firewall == r.firewall)
      && ("firewall_ssh_port" in c ==> l.firewallSshPort == c["firewall_ssh_port"]) && ("firewall_ssh_port" !in c ==> l.firewallSshPort == r.firewallSshPort)
      && ("firewall_ssh_ips" in c ==> l.firewallSshIps == c["firewall_ssh_ips"]) && ("firewall_ssh_ips" !in c ==> l.firewallSshIps == r.firewallSshIps)
      && ("command" in c ==> l.command == c["command"]) && ("command" !in c ==> l.command == r.command)
      && ("command_text" in c ==> l.commandText == c["command_text"]) && ("command_text" !in c ==> l.commandText == r.commandText)
      && l.path == r.path && l.privatDataDir == r.privatDataDir
      && l.rootPw == r.rootPw && l.initialRootPw == r.initialRootPw && l.userPw == r.userPw
      && l.reboot == r.reboot && l.bucket == r.bucket && l.coinmarketcapApiKey == r.coinmarketcapApiKey
      && l.initLog == r.initLog && l.setupLog == r.setupLog && l.updateLog == r.updateLog
  {
  }

  /** The keys `load` reads: all saved keys but `bucket` and `coinmarketcap_api_key`. */
  const LoadedKeys: set<string> := {
    "_hostname", "ip", "user", "swap",
    "last_setup", "last_init", "last_update", "setup_status", "init_status", "update_status",
    "firewall", "firewall_ssh_port", "firewall_ssh_ips", "command", "command_text"}

  /** A document that holds none of the fifteen keys leaves the record as it is. */
  lemma LoadWithoutKnownKeys(r: Record, c: Json)
    requires forall k :: k in c ==> k !in LoadedKeys
    ensures LoadInto(r, c) == r
  {
    assert "_hostname" !in c && "ip" !in c && "user" !in c && "swap" !in c;
    assert "last_init" !in c && "last_setup" !in c && "last_update" !in c;
    assert "init_status" !in c && "setup_status" !in c && "update_status" !in c;
    assert "firewall" !in c && "firewall_ssh_port" !in c && "firewall_ssh_ips" !in c;
    assert "command" !in c && "command_text" !in c;
  }

  /**
    Loading what `save` wrote restores every attribute `load` reads. `bucket` and
    `coinmarketcap_api_key` are written but never read back, and the passwords, `reboot`
    and the logs are never written: all of these keep the loading object's own values.
   */
  lemma LoadRestoresSaved(target: Record, saved: Record)
    ensures var l := LoadInto(target, ConfigOf(saved));
      && l.hostname == saved.hostname && l.ip == saved.ip && l.user == saved.user && l.swap == saved.swap
      && l.lastInit == saved.lastInit && l.lastSetup == saved.lastSetup && l.lastUpdate == saved.lastUpdate
      && l.initStatus == saved.initStatus && l.setupStatus == saved.setupStatus && l.updateStatus == saved.updateStatus
      && l.firewall == saved.firewall && l.firewallSshPort == saved.firewallSshPort
      && l.firewallSshIps == saved.firewallSshIps && l.command == saved.command && l.commandText == saved.commandText
      && l.bucket == target.bucket && l.coinmarketcapApiKey == target.coinmarketcapApiKey
      && l.rootPw == target.rootPw && l.initialRootPw == target.initialRootPw && l.userPw == target.userPw
      && l.reboot == target.reboot && l.initLog == target.initLog && l.setupLog == target.setupLog
      && l.updateLog == target.updateLog && l.path == target.path && l.privatDataDir == target.privatDataDir
  {
  }

  /** The document is a function of the attributes `save` writes, so saving twice writes the same document. */
  lemma ConfigIgnoresUnsavedFields(r: Record, s: Record)
    requires r.hostname == s.hostname && r.ip == s.ip && r.user == s.user && r.swap == s.swap
    requires r.bucket == s.bucket && r.coinmarketcapApiKey == s.coinmarketcapApiKey
    requires r.lastInit == s.lastInit && r.lastSetup == s.lastSetup && r.lastUpdate == s.lastUpdate
    requires r.initStatus == s.initStatus && r.setupStatus == s.setupStatus && r.updateStatus == s.updateStatus
    requires r.firewall == s.firewall && r.firewallSshPort == s.firewallSshPort && r.firewallSshIps == s.firewallSshIps
    requires r.command == s.command && r.commandText == s.commandText
    ensures ConfigOf(r) == ConfigOf(s)
  {
  }

  /** Where `save` puts the host file: `<path>/<hostname>.json`. */
  function DocPath(pbgdir: string, hostname: Value): string {
    HostDir(pbgdir, Display(hostname)) + "/" + Display(hostname) + ".json"
  }

  /** The attributes after `save`: with a hostname set, `path` and `privat_data_dir` are re-derived. */
  function SaveRecord(r: Record, pbgdir: string): (s: Record)
    ensures ConfigOf(s) == ConfigOf(r)
    ensures Truthy(r.hostname) ==> s.path == Some(HostDir(pbgdir, Display(r.hostname)))
    ensures Truthy(r.hostname) ==> s.privatDataDir == Some(HostDir(pbgdir, Display(r.hostname)) + "/tmp")
    ensures s.(path := r.path, privatDataDir := r.privatDataDir) == r
    ensures !Truthy(r.hostname) ==> s == r
  {
    if Truthy(r.hostname) then
      var dir := HostDir(pbgdir, Display(r.hostname));
      r.(path := Some(dir), privatDataDir := Some(dir + "/tmp"))
    else r
  }

  /** The file system after `save`: nothing at all without a hostname. */
  function SaveFs(fs: Files.Fs, r: Record, pbgdir: string): (f: Files.Fs)
    ensures Truthy(r.hostname) ==> DocPath(pbgdir, r.hostname) in f.docs && f.docs[DocPath(pbgdir, r.hostname)] == ConfigOf(r)
    ensures Truthy(r.hostname) ==> var dir := HostDir(pbgdir, Display(r.hostname));
      dir in f.dirs && dir + "/tmp" in f.dirs
    ensures fs.dirs <= f.dirs && f.texts == fs.texts
    ensures forall p :: p in f.docs ==> p in fs.docs || p == DocPath(pbgdir, r.hostname)
    ensures forall p :: p in fs.docs && p != DocPath(pbgdir, r.hostname) ==> p in f.docs && f.docs[p] == fs.docs[p]
    ensures !Truthy(r.hostname) ==> f == fs
  {
    if Truthy(r.hostname) then
      var dir := HostDir(pbgdir, Display(r.hostname));
      fs.Mkdir(dir).Mkdir(dir + "/tmp").WriteDoc(DocPath(pbgdir, r.hostname), ConfigOf(r))
    else fs
  }

  /** Saving twice in a row gives the same attributes and the same files as saving once. */
  lemma SaveIdempotent(fs: Files.Fs, r: Record, pbgdir: string)
    ensures SaveRecord(SaveRecord(r, pbgdir), pbgdir) == SaveRecord(r, pbgdir)
    ensures SaveFs(SaveFs(fs, r, pbgdir), SaveRecord(r, pbgdir), pbgdir) == SaveFs(fs, r, pbgdir)
  {
    if Truthy(r.hostname) {
      var dir := HostDir(pbgdir, Display(r.hostname));
      var once := SaveFs(fs, r, pbgdir);
      assert once.dirs + {dir} + {dir + "/tmp"} == once.dirs;
    }
  }

  // ---------------------------------------------------------------- readiness

  predicate HasUserPw(r: Record) {
    Truthy(r.userPw)
  }

  /** `has_init_parameters`: ip, both root passwords, user and user password all set. */
  predicate HasInitParameters(r: Record) {
    Truthy(r.ip) && Truthy(r.rootPw) && Truthy(r.initialRootPw) && Truthy(r.user) && Truthy(r.userPw)
  }

  /** `has_setup_parameters`: hostname, user, user password, swap, bucket and API key all set. */
  predicate HasSetupParameters(r: Record) {
    Truthy(r.hostname) && Truthy(r.user) && Truthy(r.userPw) && Truthy(r.swap)
      && Truthy(r.bucket) && Truthy(r.coinmarketcapApiKey)
  }

  /** `is_initialized`: the last init run reported the status "successful". */
  predicate IsInitialized(r: Record) {
    r.initStatus == Str("successful")
  }

  /**
    `is_initialized` is Python's `init_status == "successful"`: no int or bool equals a str,
    so only that exact str passes; a record that passes has a truthy status.
   */
  lemma IsInitializedExact(r: Record)
    ensures IsInitialized(r) <==> PyEq(r.initStatus, Str("successful"))
    ensures IsInitialized(r) ==> Truthy(r.initStatus)
  {
  }

  /** For a str-or-None user password, `has_user_pw` means a non-empty str. */
  lemma UserPwExact(r: Record)
    requires r.userPw.Null? || r.userPw.Str?
    ensures HasUserPw(r) <==> r.userPw.Str? && r.userPw.s != ""
  {
    TruthyStringOrNone(r.userPw);
  }

  /** For text-or-None attributes, init readiness means each of the five is a non-empty str. */
  lemma InitParametersExact(r: Record)
    requires forall v :: v in [r.ip, r.rootPw, r.initialRootPw, r.user, r.userPw] ==> v.Null? || v.Str?
    ensures HasInitParameters(r) <==>
      r.ip.Str? && r.ip.s != "" && r.rootPw.Str? && r.rootPw.s != "" && r.initialRootPw.Str? && r.initialRootPw.s != ""
      && r.user.Str? && r.user.s != "" && r.userPw.Str? && r.userPw.s != ""
  {
    assert r.ip in [r.ip, r.rootPw, r.initialRootPw, r.user, r.userPw];
    assert r.rootPw in [r.ip, r.rootPw, r.initialRootPw, r.user, r.userPw];
    assert r.initialRootPw in [r.ip, r.rootPw, r.initialRootPw, r.user, r.userPw];
    assert r.user in [r.ip, r.rootPw, r.initialRootPw, r.user, r.userPw];
    assert r.userPw in [r.ip, r.rootPw, r.initialRootPw, r.user, r.userPw];
  }

  /** For text-or-None attributes, setup readiness means each of the six is a non-empty str. */
  lemma SetupParametersExact(r: Record)
    requires forall v :: v in [r.hostname, r.user, r.userPw, r.swap, r.bucket, r.coinmarketcapApiKey] ==> v.Null? || v.Str?
    ensures HasSetupParameters(r) <==>
      r.hostname.Str? && r.hostname.s != "" && r.user.Str? && r.user.s != "" && r.userPw.Str? && r.userPw.s != ""
      && r.swap.Str? && r.swap.s != "" && r.bucket.Str? && r.bucket.s != ""
      && r.coinmarketcapApiKey.Str? && r.coinmarketcapApiKey.s != ""
  {
    var vs := [r.hostname, r.user, r.userPw, r.swap, r.bucket, r.coinmarketcapApiKey];
    assert r.hostname in vs && r.user in vs && r.userPw in vs;
    assert r.swap in vs && r.bucket in vs && r.coinmarketcapApiKey in vs;
  }

  /** A new object is ready for nothing: passwords, bucket and API key start unset. */
  lemma DefaultsNotReady(user: string)
    ensures !HasInitParameters(Defaults(user)) && !HasSetupParameters(Defaults(user))
    ensures !HasUserPw(Defaults(user)) && !IsInitialized(Defaults(user))
  {
  }

  // ---------------------------------------------------------------- per-workflow fields

  function LogOf(r: Record, wf: Workflow): string {
    match wf
    case Init => r.initLog
    case Setup => r.setupLog
    case Update => r.updateLog
  }

  function StatusOf(r: Record, wf: Workflow): Value {
    match wf
    case Init => r.initStatus
    case Setup => r.setupStatus
    case Update => r.updateStatus
  }

  function LastOf(r: Record, wf: Workflow): Value {
    match wf
    case Init => r.lastInit
    case Setup => r.lastSetup
    case Update => r.lastUpdate
  }

  function WithLog(r: Record, wf: Workflow, log: string): Record {
    match wf
    case Init => r.(initLog := log)
    case Setup => r.(setupLog := log)
    case Update => r.(updateLog := log)
  }

  function WithStatus(r: Record, wf: Workflow, status: Value): Record {
    match wf
    case Init => r.(initStatus := status)
    case Setup => r.(setupStatus := status)
    case Update => r.(updateStatus := status)
  }

  function WithLast(r: Record, wf: Workflow, stamp: Value): Record {
    match wf
    case Init => r.(lastInit := stamp)
    case Setup => r.(lastSetup := stamp)
    case Update => r.(lastUpdate := stamp)
  }

  /** The record with the nine per-workflow attributes cleared: what no callback may change. */
  function Shared(r: Record): Record {
    r.(initLog := "", setupLog := "", updateLog := "",
       initStatus := Null, setupStatus := Null, updateStatus := Null,
       lastInit := Null, lastSetup := Null, lastUpdate := Null)
  }

  /** The log file of a workflow, inside the host directory. */
  function LogFileName(wf: Workflow): string {
    match wf
    case Init => "vps_init.log"
    case Setup => "vps_setup.log"
    case Update => "vps_update.log"
  }

  /** Setting a workflow's log changes that log and nothing else. */
  lemma WithLogTouchesOnlyItsLog(r: Record, wf: Workflow, log: string, other: Workflow)
    ensures LogOf(WithLog(r, wf, log), wf) == log
    ensures other != wf ==> LogOf(WithLog(r, wf, log), other) == LogOf(r, other)
    ensures StatusOf(WithLog(r, wf, log), other) == StatusOf(r, other)
    ensures LastOf(WithLog(r, wf, log), other) == LastOf(r, other)
    ensures Shared(WithLog(r, wf, log)) == Shared(r)
  {
  }

  /** Setting a workflow's status changes that status and nothing else. */
  lemma WithStatusTouchesOnlyItsStatus(r: Record, wf: Workflow, status: Value, other: Workflow)
    ensures StatusOf(WithStatus(r, wf, status), wf) == status
    ensures other != wf ==> StatusOf(WithStatus(r, wf, status), other) == StatusOf(r, other)
    ensures LogOf(WithStatus(r, wf, status), other) == LogOf(r, other)
    ensures LastOf(WithStatus(r, wf, status), other) == LastOf(r, other)
    ensures Shared(WithStatus(r, wf, status)) == Shared(r)
  {
  }

  /** Setting a workflow's last-run stamp changes that stamp and nothing else. */
  lemma WithLastTouchesOnlyItsStamp(r: Record, wf: Workflow, stamp: Value, other: Workflow)
    ensures LastOf(WithLast(r, wf, stamp), wf) == stamp
    ensures other != wf ==> LastOf(WithLast(r, wf, stamp), other) == LastOf(r, other)
    ensures LogOf(WithLast(r, wf, stamp), other) == LogOf(r, other)
    ensures StatusOf(WithLast(r, wf, stamp), other) == StatusOf(r, other)
    ensures Shared(WithLast(r, wf, stamp)) == Shared(r)
  {
  }
}
