/**
 * Keep identity: the peer a certificate chain names, the subject common
 * name `<workload>@<digest>` a keep puts in its certificate requests and
 * self-signed certificates, the technology-dependent key parameters, and
 * the steward's scheme check and path order. DER, X.509 encoding, key
 * generation, hashing, signing and attestation are foreign operations: their
 * results are inputs here.
 */
module Identity {
  import opened Wrappers
  import opened Text
  import opened Bytes
  import Workload

  /** The peer at the other end of a connection. */
  datatype Peer =
    | Anonymous
    | Local(digest: string)
    | Keep(workload: string, digest: string)

  datatype Technology = Snp | Sgx | Kvm

  datatype Oid =
    | CommonName
    | KeyUsageId
    | BasicConstraintsId
    | ExtKeyUsageId
    | ServerAuth
    | ClientAuth
    | TechnologyId(technology: Technology)

  datatype Attribute = Attribute(oid: Oid, value: string)

  /** A distinguished name: a sequence of relative distinguished names. */
  type RdnSequence = seq<seq<Attribute>>

  datatype KeyUsageBit = DigitalSignature | KeyEncipherment

  datatype ExtensionValue =
    | KeyUsage(bits: set<KeyUsageBit>)
    | BasicConstraints(ca: bool, pathLen: Option<nat>)
    | ExtendedKeyUsage(purposes: seq<Oid>)
    | Report(report: seq<byte>)

  datatype Extension = Extension(id: Oid, critical: bool, value: ExtensionValue)

  /** The fields of a certificate body this model keeps. */
  datatype Certificate = Certificate(
    serial: seq<byte>,
    issuer: RdnSequence,
    subject: RdnSequence,
    notBefore: nat,
    notAfter: nat,
    extensions: seq<Extension>)

  datatype Error =
    | AttestationFailed
    | UnencryptedSteward
    | StewardFailed
    | RandomnessFailed

  // ---------------------------------------------------------------------
  // Digest text

  /** The standard base64 alphabet, with `=` padding. */
  predicate IsStandardBase64(d: string) {
    forall i :: 0 <= i < |d| ==>
      ('A' <= d[i] <= 'Z') || ('a' <= d[i] <= 'z') || ('0' <= d[i] <= '9')
      || d[i] == '+' || d[i] == '/' || d[i] == '='
  }

  /** The digest as it appears in a name: no padding, `+` as `-`, `/` as `_`. */
  function EncodeDigest(d: string): (r: string)
    ensures |r| <= |d|
    ensures '+' !in r && '/' !in r
    ensures r == [] || r[|r| - 1] != '='
  {
    var e := Replace(Replace(TrimEnd(d, '='), '+', '-'), '/', '_');
    assert forall i :: 0 <= i < |e| ==> e[i] != '+' && e[i] != '/';
    e
  }

  /** The digest read back from a name: `-` becomes `+`, `_` becomes `/`, nothing else changes. */
  function DecodeDigest(d: string): (r: string)
    ensures |r| == |d|
    ensures forall i :: 0 <= i < |d| ==>
      r[i] == (if d[i] == '-' then '+' else if d[i] == '_' then '/' else d[i])
  {
    Replace(Replace(d, '-', '+'), '_', '/')
  }

  /** A standard base64 digest survives encoding and decoding, less its padding. */
  lemma DigestRoundTrip(d: string)
    requires IsStandardBase64(d)
    ensures DecodeDigest(EncodeDigest(d)) == TrimEnd(d, '=')
  {
    var t := TrimEnd(d, '=');
    assert forall i :: 0 <= i < |t| ==> t[i] == d[i];
  }

  /** An encoded standard base64 digest never contains `@`. */
  lemma EncodedDigestHasNoAt(d: string)
    requires IsStandardBase64(d)
    ensures '@' !in EncodeDigest(d)
  {
    var t := TrimEnd(d, '=');
    assert forall i :: 0 <= i < |t| ==> t[i] == d[i];
  }

  // ---------------------------------------------------------------------
  // Reading a certificate chain

  /** The set of common names in a subject, whatever RDN they sit in. */
  function CommonNames(subject: RdnSequence): (r: set<string>)
    ensures forall i, j :: 0 <= i < |subject| && 0 <= j < |subject[i]| && subject[i][j].oid == CommonName ==>
      subject[i][j].value in r
    ensures forall n :: n in r ==>
      exists i, j :: 0 <= i < |subject| && 0 <= j < |subject[i]| &&
        subject[i][j].oid == CommonName && subject[i][j].value == n
  {
    set i, j | 0 <= i < |subject| && 0 <= j < |subject[i]| && subject[i][j].oid == CommonName
      :: subject[i][j].value
  }

  /**
   * The peer a common name designates: split at the last `@` into workload
   * and digest, undo the digest substitution, and take workload `localhost`
   * as a local peer.
   */
  function PeerFromName(cn: string): (r: Peer)
    requires '@' in cn
    ensures !r.Anonymous?
    ensures r.Keep? ==> r.workload != "localhost"
    ensures '-' !in r.digest && '_' !in r.digest
  {
    var (workload, digest) := RSplitOnce(cn, '@').value;
    var decoded := DecodeDigest(digest);
    assert forall i :: 0 <= i < |decoded| ==> decoded[i] != '-' && decoded[i] != '_';
    if workload == "localhost" then Local(decoded) else Keep(workload, decoded)
  }

  /** A name built as `<workload>@<digest>` gives back that workload and the decoded digest. */
  lemma PeerFromNameJoin(workload: string, digest: string)
    requires '@' !in digest
    ensures PeerFromName(workload + "@" + digest) ==
      if workload == "localhost" then Local(DecodeDigest(digest))
      else Keep(workload, DecodeDigest(digest))
  {
    assert workload + "@" + digest == workload + ['@'] + digest;
    RSplitOnceJoin(workload, '@', digest);
  }

  /** Every common name of a chain's first certificate must contain `@`. */
  predicate NamesAreSplittable(chain: seq<Certificate>) {
    chain != [] ==> forall n :: n in CommonNames(chain[0].subject) ==> '@' in n
  }

  /**
   * The peer a certificate chain names. An empty chain, or a first
   * certificate without a common name, is anonymous; otherwise one of the
   * first certificate's common names, chosen arbitrarily, names the peer.
   * Signatures are not checked.
   */
  ghost function FromCerts(chain: seq<Certificate>): (r: Peer)
    requires NamesAreSplittable(chain)
    ensures r.Anonymous? <==> chain == [] || CommonNames(chain[0].subject) == {}
    ensures !r.Anonymous? ==> exists n :: n in CommonNames(chain[0].subject) && r == PeerFromName(n)
  {
    if chain == [] then Anonymous
    else
      var names := CommonNames(chain[0].subject);
      if names == {} then Anonymous
      else
        var n :| n in names;
        PeerFromName(n)
  }

  // ---------------------------------------------------------------------
  // Names a keep gives itself

  /** The workload part of the subject name: the slug or URL, or `localhost`. */
  function WorkloadName(pkg: Workload.Package): string
  {
    match pkg
    case Remote(spec) => Workload.SpecText(spec)
    case Local(_, _) => "localhost"
  }

  /** The subject common name `<workload>@<digest>` for a package and its SHA-256 digest. */
  function SubjectName(pkg: Workload.Package, wdig: Workload.ContentDigest): (name: string)
    requires Workload.Sha256 in wdig
    ensures IsStandardBase64(wdig[Workload.Sha256]) ==>
      RSplitOnce(name, '@') == Some((WorkloadName(pkg), EncodeDigest(wdig[Workload.Sha256])))
  {
    var workload := WorkloadName(pkg);
    var digest := EncodeDigest(wdig[Workload.Sha256]);
    if IsStandardBase64(wdig[Workload.Sha256]) then
      EncodedDigestHasNoAt(wdig[Workload.Sha256]);
      assert workload + "@" + digest == workload + ['@'] + digest;
      RSplitOnceJoin(workload, '@', digest);
      workload + "@" + digest
    else workload + "@" + digest
  }

  /** The subject: one RDN holding the common name. */
  function Subject(pkg: Workload.Package, wdig: Workload.ContentDigest): (r: RdnSequence)
    requires Workload.Sha256 in wdig
    ensures CommonNames(r) == {SubjectName(pkg, wdig)}
  {
    var name := SubjectName(pkg, wdig);
    var subject := [[Attribute(CommonName, name)]];
    assert subject[0][0].value in CommonNames(subject);
    subject
  }

  /**
   * The name a remote package goes by: the text of its URL, which carries a
   * scheme, or a slug the parser accepted; either contains `:`.
   */
  predicate WellFormedName(pkg: Workload.Package) {
    pkg.Remote? ==> ':' in Workload.SpecText(pkg.spec)
  }

  /** The peer that a subject built for a package reads back as. */
  lemma SubjectRoundTrip(pkg: Workload.Package, wdig: Workload.ContentDigest, chain: seq<Certificate>)
    requires Workload.Sha256 in wdig && IsStandardBase64(wdig[Workload.Sha256])
    requires WellFormedName(pkg)
    requires chain != [] && chain[0].subject == Subject(pkg, wdig)
    ensures NamesAreSplittable(chain)
    ensures var d := TrimEnd(wdig[Workload.Sha256], '=');
      FromCerts(chain)
        == if pkg.Local? then Local(d) else Keep(WorkloadName(pkg), d)
  {
    var digest := wdig[Workload.Sha256];
    EncodedDigestHasNoAt(digest);
    DigestRoundTrip(digest);
    PeerFromNameJoin(WorkloadName(pkg), EncodeDigest(digest));
  }

  // ---------------------------------------------------------------------
  // Key parameters and the certificate request

  datatype Curve = P256 | P384

  const KEY_HASH_SIZE: nat := 64

  /** The number of hash bytes bound to a key on this curve: SHA-384 for P-384, SHA-256 for P-256. */
  function HashLength(curve: Curve): (n: nat)
    ensures n <= KEY_HASH_SIZE
  {
    match curve
    case P256 => 32
    case P384 => 48
  }

  /** The signing curve a technology uses: P-384 on SEV-SNP, P-256 on SGX and KVM. */
  function CurveFor(t: Technology): (c: Curve)
    ensures c == P384 <==> t == Snp
  {
    match t
    case Snp => P384
    case Sgx => P256
    case Kvm => P256
  }

  /** The key hash passed to attestation: the hash in front, zeros after, 64 bytes in all. */
  function KeyHashOf(hash: seq<byte>): (kh: seq<byte>)
    requires |hash| <= KEY_HASH_SIZE
    ensures |kh| == KEY_HASH_SIZE
    ensures kh[..|hash|] == hash
    ensures forall i :: |hash| <= i < KEY_HASH_SIZE ==> kh[i] == 0
  {
    hash + seq(KEY_HASH_SIZE - |hash|, _ => 0)
  }

  /**
   * Fills the 64-byte key hash: the public key's SHA-384 on SEV-SNP, its
   * SHA-256 otherwise. The hash functions are inputs.
   */
  method FillKeyHash(t: Technology, der: seq<byte>,
                     sha256: seq<byte> -> seq<byte>, sha384: seq<byte> -> seq<byte>)
    returns (kh: seq<byte>)
    requires |sha256(der)| == HashLength(P256) && |sha384(der)| == HashLength(P384)
    ensures |kh| == KEY_HASH_SIZE
    ensures t == Snp ==> kh == KeyHashOf(sha384(der))
    ensures t != Snp ==> kh == KeyHashOf(sha256(der))
  {
    var buffer := new byte[KEY_HASH_SIZE](_ => 0);
    var hash := if t == Snp then sha384(der) else sha256(der);
    assert |hash| == HashLength(CurveFor(t));
    var i := 0;
    while i < |hash|
      invariant 0 <= i <= |hash|
      invariant buffer[..i] == hash[..i]
      invariant forall k :: |hash| <= k < KEY_HASH_SIZE ==> buffer[k] == 0
    {
      buffer[i] := hash[i];
      i := i + 1;
    }
    kh := buffer[..];
    assert kh == KeyHashOf(hash);
  }

  /** What a certificate signing request carries, less the key and the signature. */
  datatype CertRequest = CertRequest(curve: Curve, subject: RdnSequence, extensions: seq<Extension>)

  /**
   * Generating a key and its certificate request on a platform of technology
   * `t`. The key's DER public key, the hashes and the attestation are inputs;
   * a failed attestation fails the whole request.
   */
  method Generate(t: Technology, pkg: Workload.Package, wdig: Workload.ContentDigest, der: seq<byte>,
                  sha256: seq<byte> -> seq<byte>, sha384: seq<byte> -> seq<byte>,
                  attest: seq<byte> -> Option<seq<byte>>)
    returns (r: Result<CertRequest, Error>)
    requires Workload.Sha256 in wdig
    requires |sha256(der)| == HashLength(P256) && |sha384(der)| == HashLength(P384)
    ensures r.Err? <==> attest(KeyHashOf(if t == Snp then sha384(der) else sha256(der))).None?
    ensures r.Ok? ==>
      && r.value.curve == CurveFor(t)
      && CommonNames(r.value.subject) == {SubjectName(pkg, wdig)}
      && r.value.extensions == [Extension(TechnologyId(t), false, Report(
           attest(KeyHashOf(if t == Snp then sha384(der) else sha256(der))).value))]
  {
    var curve := CurveFor(t);
    var keyHash := FillKeyHash(t, der, sha256, sha384);
    var report := attest(keyHash);
    if report.None? {
      return Err(AttestationFailed);
    }
    var ext := Extension(TechnologyId(t), false, Report(report.value));
    return Ok(CertRequest(curve, Subject(pkg, wdig), [ext]));
  }

  /** The hash bound to the key always matches the curve of that key. */
  lemma KeyHashMatchesCurve(t: Technology)
    ensures HashLength(CurveFor(t)) == (if t == Snp then 48 else 32)
  {
  }

  // ---------------------------------------------------------------------
  // Steward and self-signed certificates

  /** `s` in reverse order. */
  function Reverse<T>(s: seq<T>): (r: seq<T>)
    ensures |r| == |s|
    ensures forall i :: 0 <= i < |s| ==> r[i] == s[|s| - 1 - i]
  {
    if s == [] then [] else Reverse(s[1..]) + [s[0]]
  }

  lemma ReverseReverse<T>(s: seq<T>)
    ensures Reverse(Reverse(s)) == s
  {
  }

  /**
   * Asking the steward for a certificate chain. Only an `https` URL is used;
   * the PKI path it returns (root first) is handed back leaf first.
   * `response` is the outcome of the HTTP exchange and DER decoding.
   */
  function Steward(scheme: string, response: Option<seq<seq<byte>>>): (r: Result<seq<seq<byte>>, Error>)
    ensures scheme != "https" ==> r == Err(UnencryptedSteward)
    ensures r.Ok? <==> scheme == "https" && response.Some?
    ensures r.Ok? ==> Reverse(r.value) == response.value
  {
    if scheme != "https" then Err(UnencryptedSteward)
    else match response
      case None => Err(StewardFailed)
      case Some(path) =>
        ReverseReverse(path);
        Ok(Reverse(path))
  }

  /** The leaf, last in the steward's path, is first in the returned chain. */
  lemma StewardLeafFirst(response: seq<seq<byte>>)
    requires response != []
    ensures Steward("https", Some(response)).value[0] == response[|response| - 1]
  {
  }

  const SERIAL_LENGTH: nat := 16
  /** One year, in seconds. */
  const VALIDITY: nat := 60 * 60 * 24 * 365

  /** The extensions of a self-signed keep certificate. */
  const SELF_SIGNED_EXTENSIONS: seq<Extension> := [
    Extension(KeyUsageId, true, KeyUsage({DigitalSignature, KeyEncipherment})),
    Extension(BasicConstraintsId, true, BasicConstraints(false, None)),
    Extension(ExtKeyUsageId, false, ExtendedKeyUsage([ServerAuth, ClientAuth]))
  ]

  /** A certificate for an end entity that may serve as TLS server and client. */
  predicate IsServerClientLeaf(c: Certificate) {
    && (exists e :: e in c.extensions && e == Extension(KeyUsageId, true, KeyUsage({DigitalSignature, KeyEncipherment})))
    && (exists e :: e in c.extensions && e.id == BasicConstraintsId && e.critical && e.value == BasicConstraints(false, None))
    && (exists e :: e in c.extensions && e.id == ExtKeyUsageId && e.value.ExtendedKeyUsage?
          && ServerAuth in e.value.purposes && ClientAuth in e.value.purposes)
  }

  /**
   * A self-signed certificate for a package: the subject is also the issuer,
   * the serial is 16 random bytes, it is valid for one year from `now`.
   * `random` is the outcome of drawing the serial.
   */
  function SelfSigned(pkg: Workload.Package, wdig: Workload.ContentDigest, now: nat,
                      random: Option<seq<byte>>): (r: Result<seq<Certificate>, Error>)
    requires Workload.Sha256 in wdig
    requires random.Some? ==> |random.value| == SERIAL_LENGTH
    ensures r.Err? <==> random.None?
    ensures r.Ok? ==>
      && |r.value| == 1
      && r.value[0].issuer == r.value[0].subject
      && CommonNames(r.value[0].subject) == {SubjectName(pkg, wdig)}
      && |r.value[0].serial| == SERIAL_LENGTH
      && r.value[0].notAfter == r.value[0].notBefore + VALIDITY && r.value[0].notBefore == now
      && IsServerClientLeaf(r.value[0])
  {
    match random
    case None => Err(RandomnessFailed)
    case Some(serial) =>
      var name := Subject(pkg, wdig);
      var c := Certificate(serial, name, name, now, now + VALIDITY, SELF_SIGNED_EXTENSIONS);
      assert SELF_SIGNED_EXTENSIONS[0] in c.extensions;
      assert SELF_SIGNED_EXTENSIONS[1] in c.extensions;
      assert SELF_SIGNED_EXTENSIONS[2] in c.extensions;
      Ok([c])
  }

  /** A keep's self-signed chain names it as the peer it is. */
  lemma SelfSignedIdentity(pkg: Workload.Package, wdig: Workload.ContentDigest, now: nat, serial: seq<byte>)
    requires Workload.Sha256 in wdig && IsStandardBase64(wdig[Workload.Sha256])
    requires WellFormedName(pkg)
    requires |serial| == SERIAL_LENGTH
    ensures NamesAreSplittable(SelfSigned(pkg, wdig, now, Some(serial)).value)
    ensures var d := TrimEnd(wdig[Workload.Sha256], '=');
      FromCerts(SelfSigned(pkg, wdig, now, Some(serial)).value)
        == if pkg.Local? then Local(d) else Keep(WorkloadName(pkg), d)
  {
    SubjectRoundTrip(pkg, wdig, SelfSigned(pkg, wdig, now, Some(serial)).value);
  }
}
