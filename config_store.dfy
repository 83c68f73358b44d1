/**
 * The runtime configuration contract that the Python client exercises with
 * get_config / set_config (tests/milvus_python_test/test_config.py): a
 * fixed key space of (category, key) pairs, one value type per key with its
 * accept/reject rule, and a store in which a successful set replaces the
 * value a later get returns, as the string the caller sent. The server's
 * Config class is not part of this model; what the host reports (total
 * memory, number of gpus) enters as a parameter.
 */
module ConfigStore {
  import opened Wrappers

  /** The value types the key space uses. */
  datatype FieldType =
    | BoolField       // case-insensitive true/false/on/off/yes/no, or 0/1
    | PortField       // decimal digits, strictly between 1024 and 65535
    | DeviceField     // "gpu" and a decimal index below the host's gpu count
    | IntField        // non-empty decimal digits
    | SizeField       // decimal digits followed by KB, MB or GB
    | MemorySizeField // a SizeField that, added to the other cache size, fits the host's total memory
    | TimezoneField   // "UTC", a sign, decimal digits
    | StringField     // anything, the empty string included

  /** What the host reports; only the memory and device rules read it. */
  datatype Host = Host(totalMemory: nat, gpuCount: nat)

  datatype ConfigError = UnknownCategory | UnknownKey | InvalidValue

  /** The key space: every category and key the tests reach, each with its type. */
  const SCHEMA: map<string, map<string, FieldType>> := map[
    "cache" := map[
      "cache_size" := MemorySizeField,
      "insert_buffer_size" := MemorySizeField,
      "preload_collection" := StringField],
    "gpu" := map[
      "enable" := BoolField,
      "cache.enable" := BoolField,
      "cache_size" := IntField,
      "search_devices" := DeviceField,
      "build_index_devices" := DeviceField,
      "gpu_search_threshold" := IntField],
    "network" := map[
      "bind.address" := StringField,
      "http.port" := PortField],
    "general" := map[
      "meta_uri" := StringField,
      "timezone" := TimezoneField],
    "storage" := map[
      "path" := StringField,
      "auto_flush_interval" := IntField],
    "metric" := map[
      "enable" := BoolField,
      "address" := StringField,
      "port" := PortField],
    "wal" := map[
      "enable" := BoolField,
      "recovery_error_ignore" := BoolField,
      "buffer_size" := SizeField,
      "path" := StringField]
  ]

  predicate IsKey(c: string, k: string)
  {
    c in SCHEMA && k in SCHEMA[c]
  }

  function FieldOf(c: string, k: string): FieldType
    requires IsKey(c, k)
  {
    SCHEMA[c][k]
  }

  // ---------------------------------------------------------------------
  // Decimal digits

  predicate IsDigit(ch: char)
  {
    '0' <= ch <= '9'
  }

  /** A non-empty run of decimal digits, nothing else: no sign, point or whitespace. */
  predicate IsDigits(s: string)
  {
    |s| > 0 && forall i :: 0 <= i < |s| ==> IsDigit(s[i])
  }

  function DigitOf(ch: char): (d: nat)
    requires IsDigit(ch)
    ensures d < 10
  {
    ch as int - '0' as int
  }

  /** The number a digit string spells, most significant digit first. */
  function DigitsValue(s: string): (n: nat)
    requires forall i :: 0 <= i < |s| ==> IsDigit(s[i])
    ensures |s| == 0 ==> n == 0
    decreases |s|
  {
    if |s| == 0 then 0
    else DigitsValue(s[..|s| - 1]) * 10 + DigitOf(s[|s| - 1])
  }

  /** str(n) for a non-negative Python int. */
  function NatToString(n: nat): (s: string)
    ensures IsDigits(s)
    decreases n
  {
    if n < 10 then [('0' as int + n) as char]
    else NatToString(n / 10) + [('0' as int + n % 10) as char]
  }

  /** Reading back what str(n) wrote gives n: the decimal rendering is a round trip. */
  lemma {:induction false} DigitsOfNatToString(n: nat)
    ensures DigitsValue(NatToString(n)) == n
    decreases n
  {
    var s := NatToString(n);
    if n >= 10 {
      assert s[..|s| - 1] == NatToString(n / 10);
      DigitsOfNatToString(n / 10);
    }
  }

  // ---------------------------------------------------------------------
  // Value rules

  function LowerChar(ch: char): char
  {
    if 'A' <= ch <= 'Z' then (ch as int - 'A' as int + 'a' as int) as char else ch
  }

  function Lower(s: string): (r: string)
    ensures |r| == |s|
    ensures forall i :: 0 <= i < |s| ==> r[i] == LowerChar(s[i])
  {
    seq(|s|, i requires 0 <= i < |s| => LowerChar(s[i]))
  }

  const BOOL_TOKENS: set<string> := {"true", "false", "on", "off", "yes", "no", "0", "1"}

  predicate IsBoolToken(s: string)
  {
    Lower(s) in BOOL_TOKENS
  }

  predicate IsPort(s: string)
  {
    IsDigits(s) && 1024 < DigitsValue(s) < 65535
  }

  const DEVICE_PREFIX: string := "gpu"

  /** A single device, "gpu" and its index; lists and signs do not parse. */
  predicate IsDeviceName(s: string)
  {
    |s| > |DEVICE_PREFIX| && s[..|DEVICE_PREFIX|] == DEVICE_PREFIX && IsDigits(s[|DEVICE_PREFIX|..])
  }

  function DeviceIndex(s: string): nat
    requires IsDeviceName(s)
  {
    DigitsValue(s[|DEVICE_PREFIX|..])
  }

  const KB: nat := 1024
  const MB: nat := 1024 * 1024
  const GB: nat := 1024 * 1024 * 1024

  function UnitFactor(unit: string): (f: Option<nat>)
    ensures f.Some? <==> unit in {"KB", "MB", "GB"}
  {
    if unit == "KB" then Some(KB)
    else if unit == "MB" then Some(MB)
    else if unit == "GB" then Some(GB)
    else None
  }

  predicate IsSize(s: string)
  {
    |s| > 2 && IsDigits(s[..|s| - 2]) && UnitFactor(s[|s| - 2..]).Some?
  }

  /** The number of bytes a size spells, in binary units. */
  function SizeBytes(s: string): nat
    requires IsSize(s)
  {
    DigitsValue(s[..|s| - 2]) * UnitFactor(s[|s| - 2..]).value
  }

  const TIMEZONE_PREFIX: string := "UTC"

  predicate IsTimezone(s: string)
  {
    && |s| > |TIMEZONE_PREFIX| + 1
    && s[..|TIMEZONE_PREFIX|] == TIMEZONE_PREFIX
    && s[|TIMEZONE_PREFIX|] in {'+', '-'}
    && IsDigits(s[|TIMEZONE_PREFIX| + 1..])
  }

  /** The host-independent part of each rule: what any value stored under the type looks like. */
  predicate WellFormed(t: FieldType, v: string)
  {
    match t
    case BoolField => IsBoolToken(v)
    case PortField => IsPort(v)
    case DeviceField => IsDeviceName(v)
    case IntField => IsDigits(v)
    case SizeField => IsSize(v)
    case MemorySizeField => IsSize(v)
    case TimezoneField => IsTimezone(v)
    case StringField => true
  }

  /**
   * The full rule set_config applies: the value's shape, and for memory and
   * devices what the host has. `held` is the number of bytes the other cache
   * memory key already holds: cache_size and insert_buffer_size share the
   * host's memory, and their sum must not exceed it.
   */
  predicate Accepts(t: FieldType, v: string, host: Host, held: nat)
  {
    && WellFormed(t, v)
    && (t == MemorySizeField ==> SizeBytes(v) + held <= host.totalMemory)
    && (t == DeviceField ==> DeviceIndex(v) < host.gpuCount)
  }

  /** The two keys whose sizes together must fit in the host's memory. */
  predicate IsMemoryKey(c: string, k: string)
  {
    c == "cache" && (k == "cache_size" || k == "insert_buffer_size")
  }

  /** The other of the two memory keys. */
  function MemoryPartner(k: string): string
  {
    if k == "cache_size" then "insert_buffer_size" else "cache_size"
  }

  /** Exactly the two memory keys have the memory type. */
  lemma MemoryKeysAreMemoryFields(c: string, k: string)
    requires IsKey(c, k)
    ensures FieldOf(c, k) == MemorySizeField <==> IsMemoryKey(c, k)
  {
    GpuKeySpace();
  }

  // ---------------------------------------------------------------------
  // The store as a value

  type Values = map<(string, string), string>

  /** Every schema key holds a value of its type, and nothing else is stored. */
  predicate Stored(values: Values)
  {
    && (forall key :: key in values ==> IsKey(key.0, key.1) && WellFormed(FieldOf(key.0, key.1), values[key]))
    && (forall c | c in SCHEMA :: forall k | k in SCHEMA[c] :: (c, k) in values)
  }

  /** The bytes the other memory key holds in the store; nothing for any other key. */
  function PartnerBytes(values: Values, c: string, k: string): nat
    requires Stored(values)
  {
    if IsMemoryKey(c, k) then
      assert IsKey("cache", MemoryPartner(k));
      SizeBytes(values[("cache", MemoryPartner(k))])
    else 0
  }

  /** set_config's verdict on the current store: the category, then the key, then the value. */
  function Validate(values: Values, c: string, k: string, v: string, host: Host): (r: Outcome<ConfigError>)
    requires Stored(values)
    ensures r == Fail(UnknownCategory) <==> c !in SCHEMA
    ensures r == Fail(UnknownKey) <==> c in SCHEMA && k !in SCHEMA[c]
    ensures r == Fail(InvalidValue) <==> IsKey(c, k) && !Accepts(FieldOf(c, k), v, host, PartnerBytes(values, c, k))
    ensures r == Pass <==> IsKey(c, k) && Accepts(FieldOf(c, k), v, host, PartnerBytes(values, c, k))
  {
    if c !in SCHEMA then Fail(UnknownCategory)
    else if k !in SCHEMA[c] then Fail(UnknownKey)
    else if !Accepts(SCHEMA[c][k], v, host, PartnerBytes(values, c, k)) then Fail(InvalidValue)
    else Pass
  }

  /**
   * The cross-key memory rule: a size for either cache memory key is accepted
   * exactly when it and the size the other key holds together fit the host.
   */
  lemma MemorySumRule(values: Values, k: string, v: string, host: Host)
    requires Stored(values)
    requires IsMemoryKey("cache", k) && IsSize(v)
    ensures var other := ("cache", MemoryPartner(k));
      && other in values && IsSize(values[other])
      && (Validate(values, "cache", k, v, host) == Pass <==> SizeBytes(v) + SizeBytes(values[other]) <= host.totalMemory)
  {
    MemoryKeysAreMemoryFields("cache", k);
    assert IsKey("cache", MemoryPartner(k));
  }

  /** After an accepted set of a memory key, the two sizes the store holds fit the host together. */
  lemma SetKeepsMemoryWithinHost(values: Values, c: string, k: string, v: string, host: Host)
    requires Stored(values)
    requires IsMemoryKey(c, k) && Validate(values, c, k, v, host) == Pass
    ensures var r := Apply(values, c, k, v, host);
      SizeBytes(r[("cache", "cache_size")]) + SizeBytes(r[("cache", "insert_buffer_size")]) <= host.totalMemory
  {
    MemoryKeysAreMemoryFields(c, k);
  }

  /** get_config: unknown categories and keys fail, a known key returns what is stored. */
  function Lookup(values: Values, c: string, k: string): (r: Result<string, ConfigError>)
    requires Stored(values)
    ensures r.Success? <==> IsKey(c, k)
    ensures r.Success? ==> WellFormed(FieldOf(c, k), r.value)
    ensures c !in SCHEMA ==> r == Failure(UnknownCategory)
    ensures c in SCHEMA && k !in SCHEMA[c] ==> r == Failure(UnknownKey)
  {
    if c !in SCHEMA then Failure(UnknownCategory)
    else if k !in SCHEMA[c] then Failure(UnknownKey)
    else Success(values[(c, k)])
  }

  /** The store after set_config: the caller's string replaces the old value when it is accepted. */
  function Apply(values: Values, c: string, k: string, v: string, host: Host): (r: Values)
    requires Stored(values)
    ensures Stored(r) && r.Keys == values.Keys
    ensures Validate(values, c, k, v, host).Fail? ==> r == values
  {
    if Validate(values, c, k, v, host) == Pass then values[(c, k) := v] else values
  }

  /** After a successful set, get returns exactly the string that was set. */
  lemma SetThenGetEchoes(values: Values, c: string, k: string, v: string, host: Host)
    requires Stored(values)
    requires Validate(values, c, k, v, host) == Pass
    ensures Lookup(Apply(values, c, k, v, host), c, k) == Success(v)
  {
  }

  /** A set touches only its own key. */
  lemma SetLeavesOtherKeys(values: Values, c: string, k: string, v: string, host: Host, c': string, k': string)
    requires Stored(values)
    requires (c', k') != (c, k)
    ensures Lookup(Apply(values, c, k, v, host), c', k') == Lookup(values, c', k')
  {
  }

  /** The same set applied n times, as in the loops that set one value twenty times. */
  function ApplyTimes(values: Values, c: string, k: string, v: string, host: Host, n: nat): (r: Values)
    requires Stored(values)
    ensures Stored(r) && r.Keys == values.Keys
    decreases n
  {
    if n == 0 then values else Apply(ApplyTimes(values, c, k, v, host, n - 1), c, k, v, host)
  }

  /** Setting a value twice is setting it once. */
  lemma SetIsIdempotent(values: Values, c: string, k: string, v: string, host: Host)
    requires Stored(values)
    ensures Apply(Apply(values, c, k, v, host), c, k, v, host) == Apply(values, c, k, v, host)
  {
    if Validate(values, c, k, v, host) == Pass {
      var once := values[(c, k) := v];
      assert PartnerBytes(once, c, k) == PartnerBytes(values, c, k);
      assert once[(c, k) := v] == once;
    }
  }

  /** Repeating the same set any number of times is one set. */
  lemma {:induction false} RepeatedSetIsOneSet(values: Values, c: string, k: string, v: string, host: Host, n: nat)
    requires Stored(values)
    requires n >= 1
    ensures ApplyTimes(values, c, k, v, host, n) == Apply(values, c, k, v, host)
    decreases n
  {
    if n > 1 {
      RepeatedSetIsOneSet(values, c, k, v, host, n - 1);
      SetIsIdempotent(values, c, k, v, host);
    }
  }

  /** `b` holds the same keys as `a`, and the same values everywhere but at `key0`. */
  predicate SameElsewhere(a: Values, b: Values, key0: (string, string))
  {
    a.Keys == b.Keys && forall key :: key in a && key != key0 ==> b[key] == a[key]
  }

  /** One set leaves every other key as it was. */
  lemma ApplyLeavesOtherKeys(values: Values, c: string, k: string, v: string, host: Host)
    requires Stored(values)
    ensures SameElsewhere(values, Apply(values, c, k, v, host), (c, k))
  {
  }

  /** Repeated sets of one key leave every other key as it was. */
  lemma {:induction false} ApplyTimesLeavesOtherKeys(values: Values, c: string, k: string, v: string, host: Host, n: nat)
    requires Stored(values)
    ensures SameElsewhere(values, ApplyTimes(values, c, k, v, host, n), (c, k))
    decreases n
  {
    if n > 0 {
      ApplyTimesLeavesOtherKeys(values, c, k, v, host, n - 1);
      var w := ApplyTimes(values, c, k, v, host, n - 1);
      ApplyLeavesOtherKeys(w, c, k, v, host);
      var w' := ApplyTimes(values, c, k, v, host, n);
      assert w' == Apply(w, c, k, v, host);
      forall key | key in values && key != (c, k)
        ensures w'[key] == values[key]
      {
        assert w'[key] == w[key];
      }
    }
  }

  /** A later accepted value replaces an earlier one, however often the earlier one was set. */
  lemma LaterSetWins(values: Values, c: string, k: string, v1: string, v2: string, host: Host, n: nat)
    requires Stored(values)
    requires Validate(values, c, k, v2, host) == Pass
    ensures Lookup(Apply(ApplyTimes(values, c, k, v1, host, n), c, k, v2, host), c, k) == Success(v2)
  {
    var w := ApplyTimes(values, c, k, v1, host, n);
    ApplyTimesLeavesOtherKeys(values, c, k, v1, host, n);
    if IsMemoryKey(c, k) {
      assert ("cache", MemoryPartner(k)) in values;
      assert PartnerBytes(w, c, k) == PartnerBytes(values, c, k);
    }
    assert Validate(w, c, k, v2, host) == Pass;
  }

  // ---------------------------------------------------------------------
  // The store as an object

  class ConfigStore {
    var values: Values

    predicate Valid()
      reads this
    {
      Stored(values)
    }

    /** The server's values at start-up: one well-formed value per key. */
    constructor (defaults: Values)
      requires Stored(defaults)
      ensures Valid() && values == defaults
    {
      values := defaults;
    }

    method Get(c: string, k: string) returns (r: Result<string, ConfigError>)
      requires Valid()
      ensures r == Lookup(values, c, k)
    {
      if c !in SCHEMA {
        return Failure(UnknownCategory);
      }
      if k !in SCHEMA[c] {
        return Failure(UnknownKey);
      }
      r := Success(values[(c, k)]);
    }

    method Set(c: string, k: string, v: string, host: Host) returns (r: Outcome<ConfigError>)
      requires Valid()
      modifies this
      ensures Valid()
      ensures r == Validate(old(values), c, k, v, host)
      ensures values == Apply(old(values), c, k, v, host)
      ensures r.Pass? ==> values == old(values)[(c, k) := v]
      ensures r.Fail? ==> values == old(values)
    {
      r := Validate(values, c, k, v, host);
      if r.Pass? {
        values := values[(c, k) := v];
      }
    }
  }

  // ---------------------------------------------------------------------
  // The accept/reject rules, in general and on the values the tests send

  /** A rendered number is a port exactly when it lies strictly between 1024 and 65535. */
  lemma PortOfNumber(n: nat)
    ensures IsPort(NatToString(n)) <==> 1024 < n < 65535
  {
    DigitsOfNatToString(n);
  }

  /** No trailing whitespace survives the digit rules: "19530 ", "1\n", "1000\t" are all refused. */
  lemma TrailingWhitespaceRejected(s: string, ws: char)
    requires ws in {' ', '\n', '\t'}
    ensures !IsDigits(s + [ws]) && !IsPort(s + [ws]) && !IsDeviceName(s + [ws])
  {
    var t := s + [ws];
    assert t[|t| - 1] == ws;
  }

  /** A leading minus sign fails every numeric rule, so -1, -2 and "-gpu0" are refused. */
  lemma NegativeRejected(s: string)
    ensures !IsDigits("-" + s) && !IsPort("-" + s) && !IsDeviceName("-" + s)
    ensures !IsBoolToken("-" + s)
  {
    var t := "-" + s;
    assert t[0] == '-';
    assert Lower(t)[0] == '-';
  }

  /** Boolean tokens are read case-insensitively. */
  lemma BoolTokenIgnoresCase(s: string)
    ensures IsBoolToken(s) <==> IsBoolToken(Lower(s))
  {
    assert Lower(Lower(s)) == Lower(s);
  }

  /**
   * Any size of more gigabytes than the host has in whole gigabytes is
   * refused by both memory keys, whatever the other key holds.
   */
  lemma {:induction false} OversizedMemoryRejected(host: Host, n: nat, held: nat)
    requires n > host.totalMemory / GB
    ensures !Accepts(MemorySizeField, NatToString(n) + "GB", host, held)
  {
    var s := NatToString(n) + "GB";
    assert s[..|s| - 2] == NatToString(n);
    assert s[|s| - 2..] == "GB";
    DigitsOfNatToString(n);
    assert SizeBytes(s) == n * GB;
    assert n * GB > host.totalMemory;
  }

  /** A port written out as the string `s` of the number `n`. */
  lemma PortLiteral(n: nat, s: string)
    requires NatToString(n) == s
    ensures IsPort(s) <==> 1024 < n < 65535
  {
    PortOfNumber(n);
  }

  /** The network ports the tests set successfully: 1025, 65534 and 12345. */
  lemma AcceptedNetworkPorts()
    ensures IsPort("1025") && IsPort("65534") && IsPort("12345")
  {
    PortLiteral(1025, "1025");
    PortLiteral(65534, "65534");
    PortLiteral(12345, "12345");
  }

  /** The network ports the tests also set as strings: 19530 and 19121. */
  lemma AcceptedDefaultPorts()
    ensures IsPort("19530") && IsPort("19121")
  {
    PortLiteral(19530, "19530");
    PortLiteral(19121, "19121");
  }

  /** The metric port 9091. */
  lemma AcceptedMetricPort()
    ensures IsPort("9091")
  {
    PortLiteral(9091, "9091");
  }

  /** The ports the tests see refused at the bounds: 1024, 65535, "0" and "True". */
  lemma RejectedPorts()
    ensures !IsPort("1024") && !IsPort("65535") && !IsPort("0") && !IsPort("True")
  {
    PortLiteral(1024, "1024");
    PortLiteral(65535, "65535");
    PortLiteral(0, "0");
  }

  /** The ports the tests see refused as too large: 100000 and 1000000. */
  lemma RejectedLargePorts()
    ensures !IsPort("100000") && !IsPort("1000000")
  {
    PortLiteral(100000, "100000");
    PortLiteral(1000000, "1000000");
  }

  /** The boolean tokens the tests set, in the spellings they use, and the numbers they see refused. */
  lemma BoolVectors()
    ensures IsBoolToken("off") && IsBoolToken("False") && IsBoolToken("0") && IsBoolToken("nO")
    ensures IsBoolToken("on") && IsBoolToken("True") && IsBoolToken("1") && IsBoolToken("yES")
    ensures IsBoolToken("Off") && IsBoolToken("YES") && IsBoolToken("NO") && IsBoolToken("On")
    ensures !IsBoolToken("100")
  {
    assert Lower("off") == "off" && Lower("0") == "0" && Lower("on") == "on" && Lower("1") == "1";
    assert Lower("False") == "false" && Lower("nO") == "no" && Lower("True") == "true";
    assert Lower("yES") == "yes" && Lower("Off") == "off" && Lower("YES") == "yes";
    assert Lower("NO") == "no" && Lower("On") == "on" && Lower("100") == "100";
  }

  /**
   * Device values: "gpu0" is accepted on a host with a gpu, "gpu10000" is
   * refused on any host with at most 10000 gpus, and the lists, bare
   * numbers and spaced or signed forms never parse.
   */
  lemma DeviceVectors(host: Host)
    ensures host.gpuCount >= 1 ==> Accepts(DeviceField, "gpu0", host, 0)
    ensures host.gpuCount <= 10000 ==> !Accepts(DeviceField, "gpu10000", host, 0)
    ensures !IsDeviceName("10") && !IsDeviceName("gpu-1") && !IsDeviceName("gpu0, gpu1")
    ensures !IsDeviceName("gpu22,gpu44") && !IsDeviceName("gpu 0")
  {
    assert "gpu0"[..3] == DEVICE_PREFIX && "gpu0"[3..] == "0";
    assert "gpu10000"[..3] == DEVICE_PREFIX && "gpu10000"[3..] == NatToString(10000);
    DigitsOfNatToString(10000);
    assert "gpu-1"[3] == '-' && "gpu0, gpu1"[4] == ',' && "gpu22,gpu44"[5] == ',' && "gpu 0"[3] == ' ';
  }

  /** The integer values the tests set (2, 1, 2000) and the ones they see refused. */
  lemma IntVectors()
    ensures IsDigits("2") && IsDigits("1") && IsDigits("2000")
    ensures !IsDigits("1.5") && !IsDigits("invalid") && !IsDigits("1+2")
    ensures !IsDigits("1000.0") && !IsDigits("1000.35")
  {
    assert "invalid"[0] == 'i';
    assert "1.5"[1] == '.' && "1+2"[1] == '+' && "1000.0"[4] == '.' && "1000.35"[4] == '.';
  }

  /** The wal buffer sizes the tests set are sizes. */
  lemma SizeVectors()
    ensures IsSize("64MB") && IsSize("128MB") && IsSize("4096MB") && IsSize("1000MB") && IsSize("256MB")
  {
    assert "64MB"[..2] == "64" && "64MB"[2..] == "MB";
    assert "128MB"[..3] == "128" && "128MB"[3..] == "MB";
    assert "4096MB"[..4] == "4096" && "4096MB"[4..] == "MB";
    assert "1000MB"[..4] == "1000" && "1000MB"[4..] == "MB";
    assert "256MB"[..3] == "256" && "256MB"[3..] == "MB";
  }

  /**
   * A whole number of gigabytes fits the memory rule exactly when the host has
   * that many bytes beside what the other memory key holds.
   */
  lemma {:induction false} GigabytesAccepted(host: Host, n: nat, held: nat)
    ensures Accepts(MemorySizeField, NatToString(n) + "GB", host, held) <==> n * GB + held <= host.totalMemory
  {
    var s := NatToString(n) + "GB";
    assert s[..|s| - 2] == NatToString(n);
    assert s[|s| - 2..] == "GB";
    DigitsOfNatToString(n);
  }

  /**
   * Each value parses on its own, yet on an 8 GB host holding a 1 GB insert
   * buffer an 8 GB cache is refused and a 7 GB cache is accepted.
   */
  lemma SumOverMemoryRejected(values: Values)
    requires Stored(values) && Lookup(values, "cache", "insert_buffer_size") == Success("1GB")
    ensures Validate(values, "cache", "cache_size", "8GB", Host(8 * GB, 0)) == Fail(InvalidValue)
    ensures Validate(values, "cache", "cache_size", "7GB", Host(8 * GB, 0)) == Pass
  {
    assert "1GB"[..1] == NatToString(1) && "1GB"[1..] == "GB";
    DigitsOfNatToString(1);
    assert PartnerBytes(values, "cache", "cache_size") == GB;
    assert "8GB" == NatToString(8) + "GB" && "7GB" == NatToString(7) + "GB";
    GigabytesAccepted(Host(8 * GB, 0), 8, GB);
    GigabytesAccepted(Host(8 * GB, 0), 7, GB);
  }

  /** The timezone spellings the tests see refused, beside one that is accepted. */
  lemma TimezoneVectors()
    ensures IsTimezone("UTC+8")
    ensures !IsTimezone("utc+8") && !IsTimezone("UTC++8") && !IsTimezone("GMT+8")
  {
    assert "UTC+8"[..3] == TIMEZONE_PREFIX && "UTC+8"[4..] == "8";
    assert "utc+8"[..3][0] != TIMEZONE_PREFIX[0] && "GMT+8"[..3][0] != TIMEZONE_PREFIX[0];
    assert "UTC++8"[4..][0] == '+';
  }

  /** In a consistent store the timezone always reads back as a UTC offset. */
  lemma StoredTimezoneIsUtc(values: Values)
    requires Stored(values)
    ensures Lookup(values, "general", "timezone").Success?
    ensures var z := Lookup(values, "general", "timezone").value; |z| > 3 && z[..3] == "UTC"
  {
    assert IsKey("general", "timezone");
  }

  /** Category names that differ from a known one by case, spacing or spelling fail get and set alike. */
  lemma UnknownCategories(values: Values, k: string, v: string, host: Host)
    requires Stored(values)
    ensures forall c :: c in ["Cache_config", "cache config", "cache_Config", "cacheconfig", "Engine_config",
        "engine config", "Gpu_resource_config", "gpu resource config", "gpu_resource"] ==>
      Lookup(values, c, k) == Failure(UnknownCategory) && Validate(values, c, k, v, host) == Fail(UnknownCategory)
  {
  }

  /**
   * Key names that differ from a known one by case, spacing or spelling fail
   * get and set alike; one lemma per category.
   */
  lemma UnknownCacheKeys(values: Values, v: string, host: Host)
    requires Stored(values)
    ensures forall k :: k in ["Cpu_cache_size", "Insert_buffer_size", "preloadtable", "preload_collection "] ==>
      Lookup(values, "cache", k) == Failure(UnknownKey) && Validate(values, "cache", k, v, host) == Fail(UnknownKey)
  {
  }

  lemma UnknownGpuKeys(values: Values, v: string, host: Host)
    requires Stored(values)
    ensures forall k :: k in ["Gpu_search_threshold", "Enable", "enable ", "Cache_capacity"] ==>
      Lookup(values, "gpu", k) == Failure(UnknownKey) && Validate(values, "gpu", k, v, host) == Fail(UnknownKey)
  {
    GpuKeySpace();
  }

  lemma UnknownGpuResourceKeys(values: Values, v: string, host: Host)
    requires Stored(values)
    ensures forall k :: k in ["Search_resources", "Build_index_resources", "use_blas_threshold"] ==>
      Lookup(values, "gpu", k) == Failure(UnknownKey) && Validate(values, "gpu", k, v, host) == Fail(UnknownKey)
  {
    GpuKeySpace();
  }

  /** The gpu category has exactly its six keys. */
  lemma GpuKeySpace()
    ensures "gpu" in SCHEMA
    ensures forall k :: k in SCHEMA["gpu"] ==>
      k in {"enable", "cache.enable", "cache_size", "search_devices", "build_index_devices", "gpu_search_threshold"}
  {
  }

  lemma UnknownNetworkKeys(values: Values, v: string, host: Host)
    requires Stored(values)
    ensures forall k :: k in ["Address", "address ", "Port", "PORT", "port ", "http.port ", "child_key"] ==>
      Lookup(values, "network", k) == Failure(UnknownKey) && Validate(values, "network", k, v, host) == Fail(UnknownKey)
  {
  }

  lemma UnknownGeneralKeys(values: Values, v: string, host: Host)
    requires Stored(values)
    ensures forall k :: k in ["backend_Url", "meta_uri ", "time", "timezone ", "child_key"] ==>
      Lookup(values, "general", k) == Failure(UnknownKey) && Validate(values, "general", k, v, host) == Fail(UnknownKey)
  {
  }

  lemma UnknownStorageKeys(values: Values, v: string, host: Host)
    requires Stored(values)
    ensures forall k :: k in ["Primary_path", "path ", "auto_flush_interval ", "child_key"] ==>
      Lookup(values, "storage", k) == Failure(UnknownKey) && Validate(values, "storage", k, v, host) == Fail(UnknownKey)
  {
  }

  lemma UnknownMetricKeys(values: Values, v: string, host: Host)
    requires Stored(values)
    ensures forall k :: k in ["Enable_monitor", "enable ", "address ", "port ", "child_key"] ==>
      Lookup(values, "metric", k) == Failure(UnknownKey) && Validate(values, "metric", k, v, host) == Fail(UnknownKey)
  {
  }

  lemma UnknownWalKeys(values: Values, v: string, host: Host)
    requires Stored(values)
    ensures forall k :: k in ["enabled", "Enable", "buffer_size ", "wal_path ", "child_key"] ==>
      Lookup(values, "wal", k) == Failure(UnknownKey) && Validate(values, "wal", k, v, host) == Fail(UnknownKey)
  {
  }
}
