/** The plugin's main class (Webmaster_Monitor): the stored API key, its creation on
    activation, its rotation and its verification, plus the hand-off of a forced
    update check to the updater. */
module Monitor {
  import opened Wrappers
  import Php
  import SelfUpdate

  const KeyPrefix := "wm_"

  newtype byte = x: int | 0 <= x < 256

  /** The lower-case hexadecimal digit for `d`, as `bin2hex` writes it. */
  function HexDigit(d: nat): (c: char)
    requires d < 16
    ensures IsLowerHex(c)
  {
    if d < 10 then ('0' as int + d) as char else ('a' as int + d - 10) as char
  }

  predicate IsLowerHex(c: char) {
    '0' <= c <= '9' || 'a' <= c <= 'f'
  }

  /** The value of a hexadecimal digit; it undoes `HexDigit`. */
  function HexValue(c: char): (d: nat)
    requires IsLowerHex(c)
    ensures d < 16
  {
    if c <= '9' then c as int - '0' as int else c as int - 'a' as int + 10
  }

  /** `bin2hex`: two lower-case hex digits per byte, high nibble first. */
  function Bin2Hex(bytes: seq<byte>): (h: string)
    ensures |h| == 2 * |bytes|
    ensures forall i :: 0 <= i < |h| ==> IsLowerHex(h[i])
  {
    if bytes == [] then ""
    else [HexDigit(bytes[0] as nat / 16), HexDigit(bytes[0] as nat % 16)] + Bin2Hex(bytes[1..])
  }

  /** The inverse of `bin2hex` on strings of lower-case hex digits of even length. */
  function Hex2Bin(h: string): (bytes: seq<byte>)
    requires |h| % 2 == 0
    requires forall i :: 0 <= i < |h| ==> IsLowerHex(h[i])
    ensures |bytes| == |h| / 2
  {
    if h == "" then []
    else [(HexValue(h[0]) * 16 + HexValue(h[1])) as byte] + Hex2Bin(h[2..])
  }

  /** Decoding the hex form gives back the bytes: `bin2hex` loses nothing. */
  lemma {:induction false} Hex2BinBin2Hex(bytes: seq<byte>)
    ensures Hex2Bin(Bin2Hex(bytes)) == bytes
  {
    if bytes != [] {
      var h := Bin2Hex(bytes);
      assert h[2..] == Bin2Hex(bytes[1..]);
      Hex2BinBin2Hex(bytes[1..]);
      var b := bytes[0] as nat;
      assert HexValue(HexDigit(b / 16)) * 16 + HexValue(HexDigit(b % 16)) == b;
    }
  }

  /** The shape every generated key has: "wm_" followed by 64 lower-case hex digits. */
  predicate WellFormedKey(key: string) {
    |key| == 67 && key[..3] == KeyPrefix && forall i :: 3 <= i < 67 ==> IsLowerHex(key[i])
  }

  /** `generate_api_key`: the prefix and the hex form of 32 random bytes, which are
      an input here. */
  function GenerateApiKey(random: seq<byte>): (key: string)
    requires |random| == 32
    ensures WellFormedKey(key)
    ensures !Php.Empty(key)
  {
    KeyPrefix + Bin2Hex(random)
  }

  /** Distinct random inputs give distinct keys: the key carries all 32 bytes. */
  lemma GeneratedKeysAreInjective(a: seq<byte>, b: seq<byte>)
    requires |a| == 32 && |b| == 32
    ensures GenerateApiKey(a) == GenerateApiKey(b) ==> a == b
  {
    if GenerateApiKey(a) == GenerateApiKey(b) {
      assert GenerateApiKey(a)[3..] == Bin2Hex(a);
      assert GenerateApiKey(b)[3..] == Bin2Hex(b);
      Hex2BinBin2Hex(a);
      Hex2BinBin2Hex(b);
    }
  }

  /** `get_api_key`: the stored option, or "" when nothing is stored. */
  function ApiKeyOf(stored: Option<string>): (key: string)
    ensures stored.None? ==> key == ""
    ensures stored.Some? ==> key == stored.value
  {
    stored.GetOr("")
  }

  /** `verify_api_key`: true exactly when a non-empty key is stored and the candidate
      equals it. It fails closed when nothing (or a falsy value) is stored. */
  function VerifyKey(stored: Option<string>, candidate: string): (ok: bool)
    ensures ok <==> stored == Some(candidate) && !Php.Empty(candidate)
  {
    var key := ApiKeyOf(stored);
    !Php.Empty(key) && key == candidate
  }

  /** With no key stored, no candidate verifies. */
  lemma EmptyStoreRejectsEverything(candidate: string)
    ensures !VerifyKey(None, candidate)
  {
  }

  /** After a rotation to a different key the old key no longer verifies, and the new one does. */
  lemma RotationRevokesOldKey(oldKey: string, random: seq<byte>)
    requires |random| == 32 && GenerateApiKey(random) != oldKey
    ensures !VerifyKey(Some(GenerateApiKey(random)), oldKey)
    ensures VerifyKey(Some(GenerateApiKey(random)), GenerateApiKey(random))
  {
  }

  /** The plugin's persistent state: the two options it writes and the updater that
      exists only in an admin request. */
  class Plugin {
    /** The `wm_monitor_api_key` option. */
    var apiKey: Option<string>
    /** The `wm_monitor_activated` option. */
    var activatedAt: Option<int>
    const updater: SelfUpdate.Updater?

    constructor (apiKey: Option<string>, activatedAt: Option<int>, updater: SelfUpdate.Updater?)
      ensures this.apiKey == apiKey && this.activatedAt == activatedAt && this.updater == updater
    {
      this.apiKey := apiKey;
      this.activatedAt := activatedAt;
      this.updater := updater;
    }

    /** `activate`: a key is generated only when the stored one is missing or falsy;
        the activation time is recorded either way. Afterwards a usable key is stored. */
    method Activate(random: seq<byte>, now: int)
      requires |random| == 32
      modifies this`apiKey, this`activatedAt
      ensures old(apiKey).None? || Php.Empty(old(apiKey).value) ==> apiKey == Some(GenerateApiKey(random))
      ensures old(apiKey).Some? && !Php.Empty(old(apiKey).value) ==> apiKey == old(apiKey)
      ensures activatedAt == Some(now)
      ensures apiKey.Some? && !Php.Empty(apiKey.value)
    {
      if apiKey.None? || Php.Empty(apiKey.value) {
        apiKey := Some(GenerateApiKey(random));
      }
      activatedAt := Some(now);
    }

    /** `regenerate_api_key`: the stored key is replaced wholesale by the returned one,
        which from then on is the only key that verifies. */
    method RegenerateApiKey(random: seq<byte>) returns (key: string)
      requires |random| == 32
      modifies this`apiKey
      ensures key == GenerateApiKey(random) && apiKey == Some(key)
      ensures forall candidate :: VerifyKey(apiKey, candidate) <==> candidate == key
    {
      key := GenerateApiKey(random);
      apiKey := Some(key);
    }

    /** `force_update_check`: delegated to the updater when there is one, otherwise
        nothing happens. */
    method ForceUpdateCheck()
      modifies updater
      ensures updater != null ==> updater.cache.None? && updater.hostUpdates.None?
      ensures updater == null ==> apiKey == old(apiKey) && activatedAt == old(activatedAt)
    {
      if updater != null {
        updater.ForceUpdateCheck();
      }
    }
  }
}
