/**
 * The per-pier configuration record of api/urbit.py: its defaults
 * (`default_pier_config`), `build_config`, the JSON document that
 * `save_config` writes and the default-merge `{**default_pier_config, **cfg}`
 * that `load_config` applies to it.
 */
module PierData {
  import opened Wrappers
  import opened Strings

  /**
   * One `_urbits[patp]` record. Fields the source compares as strings
   * (`network`, `boot_status`, `show_urbit_web`) stay strings, as a loaded
   * file may hold any value there. `meld_last` and `meld_next` are stored as
   * decimal strings and always read back through `int()`; they are kept as
   * the integers they denote.
   */
  datatype PierConfig = PierConfig(
    pierName: string,
    httpPort: int,
    amesPort: int,
    loomSize: int,
    urbitVersion: string,
    minioVersion: string,
    minioPassword: string,
    network: string,
    wgUrl: string,
    wgHttpPort: Option<int>,
    wgAmesPort: Option<int>,
    wgS3Port: Option<int>,
    wgConsolePort: Option<int>,
    meldSchedule: bool,
    meldFrequency: int,
    meldTime: string,
    meldLast: int,
    meldNext: int,
    bootStatus: string,
    customUrbitWeb: string,
    customS3Web: string,
    showUrbitWeb: string)

  /** `default_pier_config` (api/urbit.py:25-48) */
  const Defaults: PierConfig := PierConfig(
    "", 8080, 34343, 31, "latest", "latest", "", "none", "nan",
    None, None, None, None, false, 7, "0000", 0, 0, "boot", "", "", "default")

  /**
   * `build_config(patp, http_port, ames_port)`: a fresh copy of the defaults
   * with the name and the two ports filled in and nothing else changed.
   */
  function BuildConfig(patp: string, httpPort: int, amesPort: int): (c: PierConfig)
    ensures c.pierName == patp && c.httpPort == httpPort && c.amesPort == amesPort
    ensures c.(pierName := Defaults.pierName, httpPort := Defaults.httpPort, amesPort := Defaults.amesPort) == Defaults
  {
    Defaults.(pierName := patp, httpPort := httpPort, amesPort := amesPort)
  }

  /**
   * A `{patp}.json` file as read back by `json.load`: every key may be
   * missing (a file written by an older release). A key of the wrong type
   * is not modelled.
   */
  datatype PierDocument = PierDocument(
    pierName: Option<string>,
    httpPort: Option<int>,
    amesPort: Option<int>,
    loomSize: Option<int>,
    urbitVersion: Option<string>,
    minioVersion: Option<string>,
    minioPassword: Option<string>,
    network: Option<string>,
    wgUrl: Option<string>,
    wgHttpPort: Option<Option<int>>,
    wgAmesPort: Option<Option<int>>,
    wgS3Port: Option<Option<int>>,
    wgConsolePort: Option<Option<int>>,
    meldSchedule: Option<bool>,
    meldFrequency: Option<int>,
    meldTime: Option<string>,
    meldLast: Option<int>,
    meldNext: Option<int>,
    bootStatus: Option<string>,
    customUrbitWeb: Option<string>,
    customS3Web: Option<string>,
    showUrbitWeb: Option<string>)

  /** A file with no keys at all (`{}`). */
  const EmptyDocument: PierDocument := PierDocument(
    None, None, None, None, None, None, None, None, None, None, None,
    None, None, None, None, None, None, None, None, None, None, None)

  /** `json.dump(self._urbits[patp], f)`: every key written. */
  function Document(c: PierConfig): (d: PierDocument)
  {
    PierDocument(
      Some(c.pierName), Some(c.httpPort), Some(c.amesPort), Some(c.loomSize),
      Some(c.urbitVersion), Some(c.minioVersion), Some(c.minioPassword),
      Some(c.network), Some(c.wgUrl), Some(c.wgHttpPort), Some(c.wgAmesPort),
      Some(c.wgS3Port), Some(c.wgConsolePort), Some(c.meldSchedule),
      Some(c.meldFrequency), Some(c.meldTime), Some(c.meldLast), Some(c.meldNext),
      Some(c.bootStatus), Some(c.customUrbitWeb), Some(c.customS3Web),
      Some(c.showUrbitWeb))
  }

  /** `{**default_pier_config, **cfg}`: a stored key wins over its default. */
  function Merge(d: PierDocument): (c: PierConfig)
  {
    PierConfig(
      d.pierName.GetOr(Defaults.pierName),
      d.httpPort.GetOr(Defaults.httpPort),
      d.amesPort.GetOr(Defaults.amesPort),
      d.loomSize.GetOr(Defaults.loomSize),
      d.urbitVersion.GetOr(Defaults.urbitVersion),
      d.minioVersion.GetOr(Defaults.minioVersion),
      d.minioPassword.GetOr(Defaults.minioPassword),
      d.network.GetOr(Defaults.network),
      d.wgUrl.GetOr(Defaults.wgUrl),
      d.wgHttpPort.GetOr(Defaults.wgHttpPort),
      d.wgAmesPort.GetOr(Defaults.wgAmesPort),
      d.wgS3Port.GetOr(Defaults.wgS3Port),
      d.wgConsolePort.GetOr(Defaults.wgConsolePort),
      d.meldSchedule.GetOr(Defaults.meldSchedule),
      d.meldFrequency.GetOr(Defaults.meldFrequency),
      d.meldTime.GetOr(Defaults.meldTime),
      d.meldLast.GetOr(Defaults.meldLast),
      d.meldNext.GetOr(Defaults.meldNext),
      d.bootStatus.GetOr(Defaults.bootStatus),
      d.customUrbitWeb.GetOr(Defaults.customUrbitWeb),
      d.customS3Web.GetOr(Defaults.customS3Web),
      d.showUrbitWeb.GetOr(Defaults.showUrbitWeb))
  }

  /**
   * api/urbit.py:1051 and 1061: loading what `save_config` wrote gives back
   * the record unchanged, whatever the defaults are.
   */
  lemma SaveLoadRoundTrip(c: PierConfig)
    ensures Merge(Document(c)) == c
  {
  }

  /** api/urbit.py:1051: a file without keys loads as the defaults. */
  lemma EmptyFileLoadsDefaults()
    ensures Merge(EmptyDocument) == Defaults
  {
  }

  /**
   * api/urbit.py:1051: a file holding only the name and the two ports (what
   * an older release might leave) loads as the record `build_config` makes.
   */
  lemma PartialFileLoadsBuiltConfig(patp: string, httpPort: int, amesPort: int)
    ensures Merge(EmptyDocument.(pierName := Some(patp), httpPort := Some(httpPort), amesPort := Some(amesPort)))
         == BuildConfig(patp, httpPort, amesPort)
  {
  }

  /**
   * Loading is idempotent: saving a loaded record and loading it again
   * changes nothing.
   */
  lemma LoadSaveLoad(d: PierDocument)
    ensures Merge(Document(Merge(d))) == Merge(d)
  {
    SaveLoadRoundTrip(Merge(d));
  }

  /**
   * The URL `list_ships` and `get_info` show for a pier: the local address
   * on its HTTP port, or for a WireGuard pier its anchor URL, replaced by
   * its custom domain when that is set and chosen for display.
   */
  function DisplayUrl(c: PierConfig, hostname: string): (url: string)
    ensures c.network != "wireguard" ==> StartsWith(url, "http://" + hostname + ".local:")
    ensures c.network != "wireguard" && c.httpPort >= 0 ==>
      ParseNat(url[|"http://" + hostname + ".local:"|..]) == Some(c.httpPort)
    ensures c.network != "wireguard" && c.httpPort < 0 ==>
      var n := |"http://" + hostname + ".local:"|;
      |url| > n && url[n] == '-' && ParseNat(url[n + 1..]) == Some(-c.httpPort)
    ensures c.network == "wireguard" && c.showUrbitWeb == "alias" && c.customUrbitWeb != "" ==> url == "https://" + c.customUrbitWeb
    ensures c.network == "wireguard" && !(c.showUrbitWeb == "alias" && c.customUrbitWeb != "") ==> url == "https://" + c.wgUrl
  {
    if c.network == "wireguard" then
      if c.showUrbitWeb == "alias" && c.customUrbitWeb != "" then "https://" + c.customUrbitWeb
      else "https://" + c.wgUrl
    else
      var prefix := "http://" + hostname + ".local:";
      var port := IntToString(c.httpPort);
      assert (prefix + port)[..|prefix|] == prefix;
      assert (prefix + port)[|prefix|..] == port;
      if c.httpPort >= 0 then
        ParseNatToString(c.httpPort);
        prefix + port
      else
        ParseNatToString(-c.httpPort);
        assert (prefix + port)[|prefix| + 1..] == NatToString(-c.httpPort);
        prefix + port
  }

  /** What a call returns to the HTTP layer (or that it never returns). */
  datatype Outcome =
    | Code(code: int)      // a status number such as 200 or 400
    | Text(text: string)   // a message string
    | Null                 // Python's None
    | Raised               // an exception the method does not catch
    | Stalled              // the anchor poll did not finish within the answers given

  /** `config_object.upload_status[patp]`: the stages of booting an uploaded pier. */
  datatype UploadStatus =
    | Setup
    | Extracting(current: nat, total: nat)
    | Cleaning
    | Booting
    | Done
}
