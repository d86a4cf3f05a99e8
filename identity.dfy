/**
 * The identity record of a network analyzer: the reply to the SCPI query
 * `*IDN?` (IEEE 488.2 identification: manufacturer, model, serial or id,
 * firmware revision) parsed into a record, with the Rohde & Schwarz
 * spellings folded into one manufacturer name and the serial and material
 * numbers derived from the id field.
 */
module Identity {
  import opened PyString

  datatype Option<T> = None | Some(value: T)

  datatype Result<T, E> = Ok(value: T) | Err(error: E)

  /** The four comma-separated fields of an identification line, as sent. */
  datatype Fields = Fields(vendor: string, instr: string, id: string, fwRev: string)

  /** Unpacking the split line into four fields fails on any other count. */
  datatype ParseError = FieldCount(count: nat)

  /**
   * The keys only one vendor branch fills in: a Rohde & Schwarz record has
   * `SerialNumber` and `MaterialNumber`, any other record has `serial`.
   */
  datatype VendorFields =
    | RohdeSchwarz(serialNumber: string, materialNumber: string)
    | Generic(serial: string)

  /**
   * The identity record. `fqdn` is absent until the record is published.
   */
  datatype Identity = Identity(
    ip: string,
    manufacturer: string,
    instr: string,
    id: string,
    firmwareVersion: string,
    idn: string,
    vendor: VendorFields,
    fqdn: Option<string>)

  /** What one identity query yields. */
  datatype Query =
    | Unreachable                 // the connection could not be opened
    | Malformed(error: ParseError) // the reply does not have four fields
    | Identified(identity: Identity)

  const RohdeSchwarzName := "Rohde & Schwarz"

  /** The two vendor spellings that are folded into `RohdeSchwarzName`. */
  predicate IsRohdeSchwarz(vendor: string)
  {
    vendor == "Rohde-Schwarz" || vendor == "Rohde&Schwarz"
  }

  /**
   * Splits the stripped reply on commas and unpacks exactly four fields.
   * The line is accepted exactly when it holds three commas; the fields
   * carry no comma and join back to the line.
   */
  function ParseFields(line: string): (r: Result<Fields, ParseError>)
    ensures r.Ok? <==> Count(line, ',') == 3
    ensures r.Err? ==> r.error == FieldCount(Count(line, ',') + 1)
    ensures r.Ok? ==>
      var f := r.value;
      && ',' !in f.vendor && ',' !in f.instr && ',' !in f.id && ',' !in f.fwRev
      && Join([f.vendor, f.instr, f.id, f.fwRev], ',') == line
  {
    var parts := Split(line, ',');
    JoinSplit(line, ',');
    if |parts| == 4 then
      assert parts == [parts[0], parts[1], parts[2], parts[3]];
      Ok(Fields(parts[0], parts[1], parts[2], parts[3]))
    else
      Err(FieldCount(|parts|))
  }

  /** Parsing four comma-free fields joined with commas gives them back. */
  lemma ParseJoined(f: Fields)
    requires ',' !in f.vendor && ',' !in f.instr && ',' !in f.id && ',' !in f.fwRev
    ensures ParseFields(Join([f.vendor, f.instr, f.id, f.fwRev], ',')) == Ok(f)
  {
    var parts := [f.vendor, f.instr, f.id, f.fwRev];
    SplitJoin(parts, ',');
  }

  /**
   * `"%s.%sK%s" % (id[:4], id[4:8], id[8:10])`: the first ten characters of
   * `id` (fewer if `id` is shorter) with a `.` after the fourth and a `K`
   * after the eighth.
   */
  function MaterialNumber(id: string): (mn: string)
    ensures var a, b, c := Min(4, |id|), Min(8, |id|), Min(10, |id|);
      && |mn| == c + 2
      && mn == id[..a] + "." + id[a..b] + "K" + id[b..c]
  {
    Slice(id, 0, 4) + "." + Slice(id, 4, 8) + "K" + Slice(id, 8, 10)
  }

  /**
   * Builds the record from the four fields: the host, model, id, firmware
   * and whole line are kept verbatim; a Rohde & Schwarz vendor gets the
   * canonical name, the last six characters of `id` as serial number and the
   * material number; any other vendor keeps its name and gets `id` as serial.
   */
  function Normalize(host: string, line: string, f: Fields): (r: Identity)
    ensures r.ip == host && r.instr == f.instr && r.id == f.id
    ensures r.firmwareVersion == f.fwRev && r.idn == line && r.fqdn == None
    ensures r.vendor.RohdeSchwarz? <==> IsRohdeSchwarz(f.vendor)
    ensures r.vendor.RohdeSchwarz? ==>
      && r.manufacturer == RohdeSchwarzName
      && |r.vendor.serialNumber| == Min(6, |f.id|)
      && f.id == f.id[..|f.id| - |r.vendor.serialNumber|] + r.vendor.serialNumber
      && r.vendor.materialNumber == MaterialNumber(f.id)
    ensures r.vendor.Generic? ==> r.manufacturer == f.vendor && r.vendor.serial == f.id
  {
    var base := Identity(host, f.vendor, f.instr, f.id, f.fwRev, line, Generic(f.id), None);
    if IsRohdeSchwarz(f.vendor) then
      base.(manufacturer := RohdeSchwarzName,
            vendor := RohdeSchwarz(Last(f.id, 6), MaterialNumber(f.id)))
    else
      base
  }

  /**
   * One identity query against `host`. `reply` is what the transport
   * delivered: `None` when opening the connection failed, otherwise the text
   * read up to the line feed. An unreachable host and a malformed reply are
   * told apart, and a parsed record keeps the stripped line as `idn`.
   */
  function QueryIdentity(host: string, reply: Option<string>): (r: Query)
    ensures r.Unreachable? <==> reply.None?
    ensures reply.Some? ==> (r.Identified? <==> Count(Strip(reply.value), ',') == 3)
    ensures r.Malformed? ==> r.error == FieldCount(Count(Strip(reply.value), ',') + 1)
    ensures r.Identified? ==> r.identity.idn == Strip(reply.value) && r.identity.ip == host
    ensures r.Identified? ==>
      var p := Split(Strip(reply.value), ',');
      && |p| == 4
      && r.identity == Normalize(host, Strip(reply.value), Fields(p[0], p[1], p[2], p[3]))
  {
    match reply
    case None => Unreachable
    case Some(text) =>
      var line := Strip(text);
      match ParseFields(line)
      case Err(e) => Malformed(e)
      case Ok(f) => Identified(Normalize(host, line, f))
  }

  /**
   * On success, the id, model and firmware fields are those of the line,
   * the line is the four fields joined with commas, and the manufacturer is
   * the first field, folded when it is a Rohde & Schwarz spelling.
   */
  lemma IdentifiedFields(host: string, text: string)
    requires QueryIdentity(host, Some(text)).Identified?
    ensures var r := QueryIdentity(host, Some(text)).identity;
      var f := Split(r.idn, ',');
      && |f| == 4
      && f[1] == r.instr && f[2] == r.id && f[3] == r.firmwareVersion
      && Join(f, ',') == r.idn
      && r.manufacturer == (if IsRohdeSchwarz(f[0]) then RohdeSchwarzName else f[0])
  {
    JoinSplit(Strip(text), ',');
  }

  /** The keys of the identity dictionary. */
  datatype Key =
    | IpKey | ManufacturerKey | InstrKey | IdKey | FirmwareVersionKey | IdnKey
    | SerialNumberKey | MaterialNumberKey | SerialKey | FqdnKey
  {
    /** The key as it is spelled in the advertised dictionary. */
    function Name(): string
    {
      match this
      case IpKey => "ip"
      case ManufacturerKey => "Manufacturer"
      case InstrKey => "instr"
      case IdKey => "id"
      case FirmwareVersionKey => "FirmwareVersion"
      case IdnKey => "IDN"
      case SerialNumberKey => "SerialNumber"
      case MaterialNumberKey => "MaterialNumber"
      case SerialKey => "serial"
      case FqdnKey => "fqdn"
    }
  }

  /**
   * The record as the key/value dictionary that is advertised: the common
   * keys, then exactly one vendor branch's keys, then `fqdn` once published.
   */
  function Properties(idn: Identity): (m: map<Key, string>)
    ensures IpKey in m && m[IpKey] == idn.ip
    ensures ManufacturerKey in m && m[ManufacturerKey] == idn.manufacturer
    ensures InstrKey in m && m[InstrKey] == idn.instr
    ensures IdKey in m && m[IdKey] == idn.id
    ensures FirmwareVersionKey in m && m[FirmwareVersionKey] == idn.firmwareVersion
    ensures IdnKey in m && m[IdnKey] == idn.idn
    ensures (SerialNumberKey in m) == (MaterialNumberKey in m) == (SerialKey !in m)
    ensures SerialNumberKey in m <==> idn.vendor.RohdeSchwarz?
    ensures SerialNumberKey in m ==>
      m[SerialNumberKey] == idn.vendor.serialNumber && m[MaterialNumberKey] == idn.vendor.materialNumber
    ensures SerialKey in m ==> m[SerialKey] == idn.vendor.serial
    ensures FqdnKey in m <==> idn.fqdn.Some?
    ensures FqdnKey in m ==> m[FqdnKey] == idn.fqdn.value
  {
    var common := map[
      IpKey := idn.ip,
      ManufacturerKey := idn.manufacturer,
      InstrKey := idn.instr,
      IdKey := idn.id,
      FirmwareVersionKey := idn.firmwareVersion,
      IdnKey := idn.idn];
    var withVendor := match idn.vendor
      case RohdeSchwarz(sn, mn) => common[SerialNumberKey := sn][MaterialNumberKey := mn]
      case Generic(serial) => common[SerialKey := serial];
    match idn.fqdn
    case Some(name) => withVendor[FqdnKey := name]
    case None => withVendor
  }

  /**
   * A reply that is four comma-free fields joined with commas, read up to
   * and including its line feed, is identified as the record those fields
   * normalise to, when the line has no surrounding whitespace.
   */
  lemma QueryJoined(host: string, f: Fields)
    requires ',' !in f.vendor && ',' !in f.instr && ',' !in f.id && ',' !in f.fwRev
    requires var line := f.vendor + "," + f.instr + "," + f.id + "," + f.fwRev;
      !IsSpace(line[0]) && !IsSpace(line[|line| - 1])
    ensures var line := f.vendor + "," + f.instr + "," + f.id + "," + f.fwRev;
      QueryIdentity(host, Some(line + "\n")) == Identified(Normalize(host, line, f))
  {
    var line := f.vendor + "," + f.instr + "," + f.id + "," + f.fwRev;
    StripLineFeed(line);
    JoinFour(f.vendor, f.instr, f.id, f.fwRev, ',');
    ParseJoined(f);
  }

  // The example lemmas take their literals as parameters pinned by
  // `requires`, which keeps the solver from unfolding them in every step.

  /** The identity line of a ZNB20 and the record it produces. */
  lemma RohdeSchwarzExample(host: string, vendor: string, instr: string, id: string, fw: string)
    requires vendor == "Rohde&Schwarz" && instr == "ZNB20-4Port"
    requires id == "1311601044101234" && fw == "3.63"
    ensures var r := QueryIdentity(host, Some(vendor + "," + instr + "," + id + "," + fw + "\n"));
      && r.Identified?
      && r.identity.manufacturer == "Rohde & Schwarz"
      && r.identity.vendor == RohdeSchwarz("101234", "1311.6010K44")
  {
    ExampleFields(vendor, instr, id, fw);
    QueryJoined(host, Fields(vendor, instr, id, fw));
    SerialAndMaterialExample(id);
  }

  /** The serial and material numbers of a ZNB20's id field. */
  lemma SerialAndMaterialExample(id: string)
    requires id == "1311601044101234"
    ensures Last(id, 6) == "101234"
    ensures MaterialNumber(id) == "1311.6010K44"
  {
    assert Slice(id, 0, 4) == "1311";
    assert Slice(id, 4, 8) == "6010";
    assert Slice(id, 8, 10) == "44";
  }

  /** A vendor outside the Rohde & Schwarz spellings keeps its name. */
  lemma KeysightExample(host: string, vendor: string, instr: string, id: string, fw: string)
    requires vendor == "Keysight" && instr == "E5071C"
    requires id == "MY12345678" && fw == "A.02.10"
    ensures var r := QueryIdentity(host, Some(vendor + "," + instr + "," + id + "," + fw + "\n"));
      && r.Identified?
      && r.identity.manufacturer == "Keysight"
      && r.identity.vendor == Generic("MY12345678")
  {
    ExampleFields(vendor, instr, id, fw);
    assert !IsRohdeSchwarz(vendor) by {
      assert |vendor| == 8 && |"Rohde-Schwarz"| == 13 && |"Rohde&Schwarz"| == 13;
    }
    QueryJoined(host, Fields(vendor, instr, id, fw));
  }

  /** The example fields carry no comma, and their line no surrounding whitespace. */
  lemma ExampleFields(vendor: string, instr: string, id: string, fw: string)
    requires
      || (vendor == "Rohde&Schwarz" && instr == "ZNB20-4Port" && id == "1311601044101234" && fw == "3.63")
      || (vendor == "Keysight" && instr == "E5071C" && id == "MY12345678" && fw == "A.02.10")
    ensures ',' !in vendor && ',' !in instr && ',' !in id && ',' !in fw
    ensures var line := vendor + "," + instr + "," + id + "," + fw;
      !IsSpace(line[0]) && !IsSpace(line[|line| - 1])
  {
    var line := vendor + "," + instr + "," + id + "," + fw;
    assert line[0] == vendor[0] && line[|line| - 1] == fw[|fw| - 1];
  }
}
