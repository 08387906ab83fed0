/**
  The `VPS` host record as an object whose methods update its attributes in place. Each
  method is specified by the functions of `Records` on the value `State()`; the file system
  and the clock are passed in, and the new file system is returned.
 */
module Hosts {

  import opened Wrappers
  import opened Values
  import opened Records
  import Files
  import Ansi
  import HostsLine
  import Timestamp

  /** The text `event.get("stdout")` contributes: a non-empty str, or "" for None or a missing key. */
  function Stdout(event: Json): (dump: string)
    ensures dump != "" ==> "stdout" in event && event["stdout"] == Str(dump)
  {
    if "stdout" in event && event["stdout"].Str? then event["stdout"].s else ""
  }

  class VPS {
    /** The application directory (the working directory when the program started). */
    const pbgdir: string

    var hostname: Value
    var path: Option<string>
    var privatDataDir: Option<string>
    var ip: Value
    var rootPw: Value
    var initialRootPw: Value
    var user: Value
    var userPw: Value
    var swap: Value
    var lastInit: Value
    var lastSetup: Value
    var lastUpdate: Value
    var initStatus: Value
    var setupStatus: Value
    var updateStatus: Value
    var command: Value
    var commandText: Value
    var reboot: Value
    var initLog: string
    var setupLog: string
    var updateLog: string
    var bucket: Value
    var coinmarketcapApiKey: Value
    var firewall: Value
    var firewallSshPort: Value
    var firewallSshIps: Value

    /** All attributes as one value. */
    function State(): Record
      reads this
    {
      Record(hostname, path, privatDataDir, ip, rootPw, initialRootPw, user, userPw, swap,
             lastInit, lastSetup, lastUpdate, initStatus, setupStatus, updateStatus,
             command, commandText, reboot, initLog, setupLog, updateLog,
             bucket, coinmarketcapApiKey, firewall, firewallSshPort, firewallSshIps)
    }

    constructor(pbgdir: string, user: string)
      ensures this.pbgdir == pbgdir && State() == Defaults(user)
    {
      this.pbgdir := pbgdir;
      hostname, path, privatDataDir := Null, None, None;
      ip, rootPw, initialRootPw := Null, Null, Null;
      this.user, userPw, swap := Str(user), Null, Str("2.5G");
      lastInit, lastSetup, lastUpdate := Null, Null, Null;
      initStatus, setupStatus, updateStatus := Null, Null, Null;
      command, commandText, reboot := Str("unknown"), Str("unknown"), Bool(false);
      initLog, setupLog, updateLog := "", "", "";
      bucket, coinmarketcapApiKey := Null, Null;
      firewall, firewallSshPort, firewallSshIps := Bool(true), Int(22), Str("");
    }

    /** The `hostname` setter: the name, and the host directory derived from it. */
    method SetHostname(name: Value)
      modifies this
      ensures State() == old(State()).(hostname := name, path := Some(HostDir(pbgdir, Display(name))))
    {
      hostname := name;
      path := Some(HostDir(pbgdir, Display(hostname)));
    }

    /**
      `load`: reads the JSON document at `path`; fails (the exception of `open`) when there is
      no document there, which includes a `path` that names the host directory.
     */
    method Load(fs: Files.Fs) returns (ok: bool)
      modifies this
      ensures ok <==> old(path).Some? && old(path).value in fs.docs
      ensures ok ==> State() == LoadInto(old(State()), fs.docs[old(path).value])
      ensures !ok ==> State() == old(State())
    {
      if path.None? || path.value !in fs.docs {
        return false;
      }
      var config := fs.docs[path.value];
      // every key that is present replaces its attribute; the others keep theirs
      LoadAddress(config);
      LoadAccount(config);
      LoadStamps(config);
      LoadStatuses(config);
      LoadFirewall(config);
      LoadCommand(config);
      ok := true;
    }

    /** The part of `load` that reads the host name and address. */
    method LoadAddress(config: Json)
      modifies this
      ensures State() == old(State()).(
        hostname := Pick(config, "_hostname", old(hostname)),
        ip := Pick(config, "ip", old(ip)))
    {
      hostname := Pick(config, "_hostname", hostname);
      ip := Pick(config, "ip", ip);
    }

    /** The part of `load` that reads the login user and the swap size. */
    method LoadAccount(config: Json)
      modifies this
      ensures State() == old(State()).(
        user := Pick(config, "user", old(user)),
        swap := Pick(config, "swap", old(swap)))
    {
      user := Pick(config, "user", user);
      swap := Pick(config, "swap", swap);
    }

    /** The part of `load` that reads the time stamps of the three workflows. */
    method LoadStamps(config: Json)
      modifies this
      ensures State() == old(State()).(
        lastSetup := Pick(config, "last_setup", old(lastSetup)),
        lastInit := Pick(config, "last_init", old(lastInit)),
        lastUpdate := Pick(config, "last_update", old(lastUpdate)))
    {
      lastSetup := Pick(config, "last_setup", lastSetup);
      lastInit := Pick(config, "last_init", lastInit);
      lastUpdate := Pick(config, "last_update", lastUpdate);
    }

    /** The part of `load` that reads the statuses of the three workflows. */
    method LoadStatuses(config: Json)
      modifies this
      ensures State() == old(State()).(
        setupStatus := Pick(config, "setup_status", old(setupStatus)),
        initStatus := Pick(config, "init_status", old(initStatus)),
        updateStatus := Pick(config, "update_status", old(updateStatus)))
    {
      setupStatus := Pick(config, "setup_status", setupStatus);
      initStatus := Pick(config, "init_status", initStatus);
      updateStatus := Pick(config, "update_status", updateStatus);
    }

    /** The part of `load` that reads the firewall settings. */
    method LoadFirewall(config: Json)
      modifies this
      ensures State() == old(State()).(
        firewall := Pick(config, "firewall", old(firewall)),
        firewallSshPort := Pick(config, "firewall_ssh_port", old(firewallSshPort)),
        firewallSshIps := Pick(config, "firewall_ssh_ips", old(firewallSshIps)))
    {
      firewall := Pick(config, "firewall", firewall);
      firewallSshPort := Pick(config, "firewall_ssh_port", firewallSshPort);
      firewallSshIps := Pick(config, "firewall_ssh_ips", firewallSshIps);
    }

    /** The part of `load` that reads the update command. */
    method LoadCommand(config: Json)
      modifies this
      ensures State() == old(State()).(
        command := Pick(config, "command", old(command)),
        commandText := Pick(config, "command_text", old(commandText)))
    {
      command := Pick(config, "command", command);
      commandText := Pick(config, "command_text", commandText);
    }

    /**
      `is_vps_in_hosts`: some line of the hosts table (None when the file does not exist)
      matches `^ip[ \t]+hostname$`, both interpolated as `str()` does.
     */
    method IsVpsInHosts(hosts: Option<seq<string>>) returns (found: bool)
      ensures found <==> (hosts.Some? &&
        exists k :: 0 <= k < |hosts.value| && HostsLine.LineMatches(Display(ip), Display(hostname), hosts.value[k]))
    {
      if hosts.None? {
        return false;
      }
      var lines := hosts.value;
      var k := 0;
      while k < |lines|
        invariant 0 <= k <= |lines|
        invariant forall j :: 0 <= j < k ==> !HostsLine.LineMatches(Display(ip), Display(hostname), lines[j])
      {
        if HostsLine.LineMatches(Display(ip), Display(hostname), lines[k]) {
          return true;
        }
        k := k + 1;
      }
      return false;
    }

    /** The log text `view_*_log` displays: the workflow's log with escape sequences removed. */
    function ViewLog(wf: Workflow): (shown: string)
      reads this
      ensures Ansi.IsSubsequence(shown, LogOf(State(), wf))
      ensures Ansi.ESC !in LogOf(State(), wf) ==> shown == LogOf(State(), wf)
    {
      var log := LogOf(State(), wf);
      assert Ansi.IsSubsequence(Ansi.StripAnsi(log), log) by {
        Ansi.StripAnsiIsSubsequence(log);
      }
      assert Ansi.ESC !in log ==> Ansi.StripAnsi(log) == log by {
        if Ansi.ESC !in log {
          Ansi.StripAnsiWithoutEscape(log);
        }
      }
      Ansi.StripAnsi(log)
    }

    /**
      `*_event_handler`: a non-empty stdout is appended to the workflow's log file in the host
      directory and to its in-memory log; an event without stdout changes nothing. Opening the
      file fails when `path` is not an existing directory, and then nothing changes either.
     */
    method EventHandler(wf: Workflow, event: Json, fs: Files.Fs) returns (ok: bool, fs': Files.Fs)
      requires "stdout" in event ==> event["stdout"].Null? || event["stdout"].Str?
      modifies this
      ensures var dump := Stdout(event);
        && (ok <==> dump == "" || PathText(old(path)) in fs.dirs)
        && (dump == "" || !ok ==> State() == old(State()) && fs' == fs)
        && (dump != "" && ok ==>
              && State() == WithLog(old(State()), wf, LogOf(old(State()), wf) + dump)
              && fs' == fs.AppendIn(PathText(old(path)), LogFileName(wf), dump).value)
    {
      var dump := Stdout(event);
      if dump == "" {
        return true, fs;
      }
      var appended := fs.AppendIn(PathText(path), LogFileName(wf), dump);
      if appended.None? {
        return false, fs;
      }
      fs' := appended.value;
      AppendLog(wf, dump);
      ok := true;
    }

    /** Appends text to the in-memory log of a workflow. */
    method AppendLog(wf: Workflow, text: string)
      modifies this
      ensures State() == WithLog(old(State()), wf, LogOf(old(State()), wf) + text)
    {
      match wf {
        case Init => initLog := initLog + text;
        case Setup => setupLog := setupLog + text;
        case Update => updateLog := updateLog + text;
      }
    }

    /** `remove_*_log`: deletes the workflow's log file if there is one. */
    method RemoveLog(wf: Workflow, fs: Files.Fs) returns (fs': Files.Fs)
      ensures var log := PathText(path) + "/" + LogFileName(wf);
        && log !in fs'.texts
        && fs'.docs == fs.docs && fs'.dirs == fs.dirs
        && forall p :: p != log ==> fs'.TextOf(p) == fs.TextOf(p)
      ensures fs' == fs.Unlink(PathText(path) + "/" + LogFileName(wf))
    {
      fs' := fs.Unlink(PathText(path) + "/" + LogFileName(wf));
    }

    /** `*_status_handler`: the reported status replaces the workflow's status, verbatim. */
    method StatusHandler(wf: Workflow, statusData: Json)
      requires "status" in statusData
      modifies this
      ensures State() == WithStatus(old(State()), wf, statusData["status"])
    {
      SetStatus(wf, statusData["status"]);
    }

    /** Replaces the status of a workflow. */
    method SetStatus(wf: Workflow, status: Value)
      modifies this
      ensures State() == WithStatus(old(State()), wf, status)
    {
      match wf {
        case Init => initStatus := status;
        case Setup => setupStatus := status;
        case Update => updateStatus := status;
      }
    }

    /** Empties the in-memory log of a workflow. */
    method ClearLog(wf: Workflow)
      modifies this
      ensures State() == WithLog(old(State()), wf, "")
    {
      match wf {
        case Init => initLog := "";
        case Setup => setupLog := "";
        case Update => updateLog := "";
      }
    }

    /**
      `save`: with a hostname set, re-derives `path` and `privat_data_dir`, creates both
      directories and writes the host file; without one, does nothing.
     */
    method Save(fs: Files.Fs) returns (fs': Files.Fs)
      modifies this
      ensures State() == SaveRecord(old(State()), pbgdir)
      ensures fs' == SaveFs(fs, old(State()), pbgdir)
    {
      fs' := fs;
      if Truthy(hostname) {
        path := Some(HostDir(pbgdir, Display(hostname)));
        fs' := fs'.Mkdir(path.value);
        privatDataDir := Some(path.value + "/tmp");
        fs' := fs'.Mkdir(privatDataDir.value);
        var file := path.value + "/" + Display(hostname) + ".json";
        fs' := fs'.WriteDoc(file, ConfigOf(State()));
      }
    }

    /**
      `*_finished`: stamps the workflow's last run with the formatted time, saves, and removes
      the private working directory (a missing one is not an error).
     */
    method Finished(wf: Workflow, now: Timestamp.DateTime, fs: Files.Fs) returns (fs': Files.Fs)
      requires Timestamp.Valid(now)
      modifies this
      ensures var stamped := WithLast(old(State()), wf, Str(Timestamp.Strftime(now)));
        && State() == SaveRecord(stamped, pbgdir)
        && fs' == SaveFs(fs, stamped, pbgdir).Rmtree(PathText(path) + "/tmp")
    {
      Stamp(wf, Str(Timestamp.Strftime(now)));
      fs' := Save(fs);
      fs' := fs'.Rmtree(PathText(path) + "/tmp");
    }

    /** Records the time a workflow last finished. */
    method Stamp(wf: Workflow, stamp: Value)
      modifies this
      ensures State() == WithLast(old(State()), wf, stamp)
    {
      match wf {
        case Init => lastInit := stamp;
        case Setup => lastSetup := stamp;
        case Update => lastUpdate := stamp;
      }
    }

    /** `delete`: removes the host directory tree; a missing directory is not an error. */
    method Delete(fs: Files.Fs) returns (fs': Files.Fs)
      ensures var dir := HostDir(pbgdir, Display(hostname));
        && (dir !in fs.dirs ==> fs' == fs)
        && (forall p :: Files.Within(p, dir) && dir in fs.dirs ==> p !in fs'.docs && p !in fs'.texts && p !in fs'.dirs)
        && (forall p :: !Files.Within(p, dir) ==> fs'.TextOf(p) == fs.TextOf(p))
        && (forall p :: !Files.Within(p, dir) && p in fs.docs ==> p in fs'.docs && fs'.docs[p] == fs.docs[p])
        && (forall p :: !Files.Within(p, dir) ==> (p in fs'.dirs <==> p in fs.dirs))
    {
      fs' := fs.Rmtree(HostDir(pbgdir, Display(hostname)));
    }
  }

  /** Two events "a" then "b" for one workflow leave "ab" at the end of its log and of its log file. */
  lemma EventsAppendInOrder(r: Record, wf: Workflow, a: string, b: string, fs: Files.Fs, dir: string)
    requires dir in fs.dirs
    ensures var once := WithLog(r, wf, LogOf(r, wf) + a);
      LogOf(WithLog(once, wf, LogOf(once, wf) + b), wf) == LogOf(r, wf) + (a + b)
    ensures fs.AppendIn(dir, LogFileName(wf), a).value.AppendIn(dir, LogFileName(wf), b)
      == fs.AppendIn(dir, LogFileName(wf), a + b)
  {
    var once := WithLog(r, wf, LogOf(r, wf) + a);
    WithLogTouchesOnlyItsLog(r, wf, LogOf(r, wf) + a, wf);
    WithLogTouchesOnlyItsLog(once, wf, LogOf(once, wf) + b, wf);
    assert LogOf(r, wf) + a + b == LogOf(r, wf) + (a + b);
    Files.AppendTwice(fs, dir, LogFileName(wf), a, b);
  }

  /**
    The `hostname` setter and `save` agree on `path`: both make it the host directory, which
    `save` creates, while the document sits one level below it under the host's name.
   */
  lemma SetterPathIsTheDirectory(r: Record, name: Value, fs: Files.Fs, pbgdir: string)
    requires Truthy(name)
    ensures var named := r.(hostname := name, path := Some(HostDir(pbgdir, Display(name))));
      SaveRecord(named, pbgdir).path == named.path &&
      PathText(named.path) in SaveFs(fs, named, pbgdir).dirs &&
      DocPath(pbgdir, name) in SaveFs(fs, named, pbgdir).docs &&
      DocPath(pbgdir, name) != PathText(named.path)
  {
    var dir := HostDir(pbgdir, Display(name));
    assert |DocPath(pbgdir, name)| > |dir|;
  }

  /**
    `delete` on a record whose host name is the empty str removes the hosts root itself, and
    with it every host's directory, file and log.
   */
  lemma DeletingUnnamedRemovesEveryHost(fs: Files.Fs, pbgdir: string, name: string, p: string)
    requires HostsRoot(pbgdir) in fs.dirs
    requires Files.Within(p, HostDir(pbgdir, name))
    ensures var after := fs.Rmtree(HostDir(pbgdir, Display(Str(""))));
      p !in after.docs && p !in after.texts && p !in after.dirs
  {
    var root := HostsRoot(pbgdir);
    var dir := HostDir(pbgdir, name);
    if name != "" {
      assert dir[..|root|] == root && dir[|root|] == '/';
      assert p[..|root|] == dir[..|root|];
      assert Files.Within(p, root);
    }
  }
}
