/**
 * How the server's startup turns its environment into the connection string it dials
 * (`app_lifespan`): the address is required, the port defaults to 14540, and the protocol is
 * lower-cased and falls back to udp when it is not one of tcp, udp and serial.
 */
module Connection {
  import opened Wrappers
  import opened Text

  const AddressKey := "MAVLINK_ADDRESS"
  const PortKey := "MAVLINK_PORT"
  const ProtocolKey := "MAVLINK_PROTOCOL"
  const DefaultPort := "14540"
  const DefaultProtocol := "udp"

  /** The protocols the server accepts as given. */
  predicate KnownProtocol(p: string) {
    p == "tcp" || p == "udp" || p == "serial"
  }

  /** The normalised connection settings. */
  datatype Settings = Settings(address: string, port: string, protocol: string)

  /** Startup refuses to go on without an address. */
  datatype ConfigError = AddressNotConfigured

  /** `os.environ.get(key, default)`. */
  function EnvGet(env: map<string, string>, key: string, default: string): (v: string)
    ensures key in env ==> v == env[key]
    ensures key !in env ==> v == default
  {
    if key in env then env[key] else default
  }

  /** The protocol as used: the lower-cased setting if it is a known protocol, udp otherwise. */
  function NormalizeProtocol(raw: string): (p: string)
    ensures KnownProtocol(p)
    ensures KnownProtocol(ToLower(raw)) ==> p == ToLower(raw)
    ensures !KnownProtocol(ToLower(raw)) ==> p == DefaultProtocol
  {
    var lowered := ToLower(raw);
    if KnownProtocol(lowered) then lowered else DefaultProtocol
  }

  /**
   * The settings read at startup. An empty or missing address is the one error; the port is taken
   * as given (default 14540) and the protocol is normalised (default udp).
   */
  function LoadSettings(env: map<string, string>): (r: Result<Settings, ConfigError>)
    ensures r.Failure? <==> EnvGet(env, AddressKey, "") == ""
    ensures r.Success? ==> r.value.address == env[AddressKey] && r.value.address != ""
    ensures r.Success? ==> r.value.port == EnvGet(env, PortKey, DefaultPort)
    ensures r.Success? ==> r.value.protocol == NormalizeProtocol(EnvGet(env, ProtocolKey, DefaultProtocol))
  {
    var address := EnvGet(env, AddressKey, "");
    var port := EnvGet(env, PortKey, DefaultPort);
    var protocol := EnvGet(env, ProtocolKey, DefaultProtocol);
    if address == "" then Failure(AddressNotConfigured)
    else Success(Settings(address, port, NormalizeProtocol(protocol)))
  }

  /**
   * `f"{protocol}://{address}:{port}"`. A protocol without a `:` is read back exactly as the text before
   * the first `:`, whatever the address contains, and `://`, the address, `:` and the port follow it.
   */
  function ConnectionString(s: Settings): (cs: string)
    ensures ':' !in s.protocol ==> BeforeChar(cs, ':') == s.protocol
    ensures |s.protocol| <= |cs| && cs[|s.protocol|..] == "://" + s.address + ":" + s.port
  {
    var rest := "://" + s.address + ":" + s.port;
    if ':' !in s.protocol then BeforeCharPrefix(s.protocol, rest, ':'); s.protocol + rest
    else s.protocol + rest
  }

  /**
   * The connection string startup dials, or the error it raises before dialling anything: the
   * connect call is reached only with valid settings.
   */
  function DialTarget(env: map<string, string>): (r: Result<string, ConfigError>)
    ensures r.Failure? <==> EnvGet(env, AddressKey, "") == ""
    ensures r.Success? ==> r == Success(ConnectionString(LoadSettings(env).value))
  {
    match LoadSettings(env)
    case Failure(e) => Failure(e)
    case Success(s) => Success(ConnectionString(s))
  }

  /** Lower-casing twice is lower-casing once. */
  lemma ToLowerIdempotent(s: string)
    ensures ToLower(ToLower(s)) == ToLower(s)
  {
    forall k | 0 <= k < |s| ensures ToLower(ToLower(s))[k] == ToLower(s)[k] {
      var c := s[k];
      assert ToLower(s)[k] == LowerChar(c);
    }
  }

  /** Normalising a normalised protocol changes nothing. */
  lemma NormalizeProtocolIdempotent(raw: string)
    ensures NormalizeProtocol(NormalizeProtocol(raw)) == NormalizeProtocol(raw)
  {
    var p := NormalizeProtocol(raw);
    assert ToLower(p) == p by {
      if p == ToLower(raw) {
        ToLowerIdempotent(raw);
      } else {
        assert p == "udp";
        assert ToLower(p)[0] == 'u' && ToLower(p)[1] == 'd' && ToLower(p)[2] == 'p';
      }
    }
  }

  /** The protocol setting is read without regard to letter case. */
  lemma NormalizeProtocolIgnoresCase(raw: string)
    ensures NormalizeProtocol(ToLower(raw)) == NormalizeProtocol(raw)
  {
    ToLowerIdempotent(raw);
  }

  /** A scheme that is a known protocol has no `:`. */
  lemma KnownProtocolNoColon(p: string)
    requires KnownProtocol(p)
    ensures ':' !in p
  {
  }

  /** With only an address set, startup dials it over udp on port 14540. */
  lemma DefaultsExample(address: string)
    requires address != ""
    ensures DialTarget(map[AddressKey := address]) == Success("udp://" + address + ":14540")
  {
    var env := map[AddressKey := address];
    assert PortKey !in env && ProtocolKey !in env;
    assert ToLower(DefaultProtocol) == DefaultProtocol by {
      assert ToLower("udp")[0] == 'u' && ToLower("udp")[1] == 'd' && ToLower("udp")[2] == 'p';
    }
    assert LoadSettings(env) == Success(Settings(address, DefaultPort, DefaultProtocol));
    assert ConnectionString(Settings(address, DefaultPort, DefaultProtocol)) == "udp" + "://" + address + ":" + "14540";
    assert "udp" + "://" == "udp://" && ":" + "14540" == ":14540";
    assert "udp" + "://" + address + ":" + "14540" == "udp://" + address + ":14540";
  }

  /** An unknown protocol, in any letter case, falls back to udp; a known one in upper case is lower-cased. */
  lemma ProtocolExamples()
    ensures NormalizeProtocol("TCP") == "tcp"
    ensures NormalizeProtocol("Serial") == "serial"
    ensures NormalizeProtocol("http") == "udp"
  {
    assert ToLower("TCP") == "tcp" by {
      assert ToLower("TCP")[0] == 't' && ToLower("TCP")[1] == 'c' && ToLower("TCP")[2] == 'p';
    }
    var s := ToLower("Serial");
    assert s == "serial" by {
      assert s[0] == 's' && s[1] == 'e' && s[2] == 'r' && s[3] == 'i' && s[4] == 'a' && s[5] == 'l';
    }
    var h := ToLower("http");
    assert h[0] == 'h';
  }
}
