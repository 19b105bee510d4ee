/** The tunnel editor's form: reading the fields of one peer and the interface out
    of a configuration text, and patching edited fields back into that text. */
module TunnelDraft {
  import opened Wrappers
  import opened ConfText

  datatype Field =
    | PrivateKey | Addresses | ListenPort | Dns | Mtu
    | PeerPublicKey | PresharedKey | AllowedIPs | Endpoint | Keepalive
    | Carrier | Congestion | Fec | Obfs

  /** The text of every form field. */
  type Draft = Field -> string

  const INTERFACE_FIELDS: seq<Field> := [PrivateKey, Addresses, ListenPort, Dns, Mtu]
  const PEER_FIELDS: seq<Field> := [PeerPublicKey, PresharedKey, AllowedIPs, Endpoint, Keepalive]
  const TRANSPORT_FIELDS: seq<Field> := [Carrier, Congestion, Fec, Obfs]

  predicate IsList(f: Field) {
    f.Addresses? || f.Dns? || f.AllowedIPs?
  }

  /** What a field reads as when the text does not set it. */
  function Default(f: Field): string {
    match f
    case Carrier => "quic"
    case Congestion => "auto"
    case Fec => "auto"
    case Obfs => "salamander"
    case _ => ""
  }

  /** How a field is written in the text. */
  function Name(f: Field): string {
    match f
    case PrivateKey => "PrivateKey"
    case Addresses => "Address"
    case ListenPort => "ListenPort"
    case Dns => "DNS"
    case Mtu => "MTU"
    case PeerPublicKey => "PublicKey"
    case PresharedKey => "PresharedKey"
    case AllowedIPs => "AllowedIPs"
    case Endpoint => "Endpoint"
    case Keepalive => "PersistentKeepalive"
    case Carrier => "carrier"
    case Congestion => "congestion"
    case Fec => "fec"
    case Obfs => "obfs"
  }

  function InterfaceField(key: string): Option<Field> {
    if key == "privatekey" then Some(PrivateKey)
    else if key == "address" then Some(Addresses)
    else if key == "listenport" then Some(ListenPort)
    else if key == "dns" then Some(Dns)
    else if key == "mtu" then Some(Mtu)
    else None
  }

  function PeerField(key: string): Option<Field> {
    if key == "publickey" then Some(PeerPublicKey)
    else if key == "presharedkey" then Some(PresharedKey)
    else if key == "allowedips" then Some(AllowedIPs)
    else if key == "endpoint" then Some(Endpoint)
    else if key == "persistentkeepalive" then Some(Keepalive)
    else None
  }

  function TransportField(key: string): Option<Field> {
    if key == "carrier" then Some(Carrier)
    else if key == "congestion" then Some(Congestion)
    else if key == "fec" then Some(Fec)
    else if key == "obfs" then Some(Obfs)
    else None
  }

  const DIRECTIVE: string := "# wg-quic:"

  predicate Terminator(c: char) {
    c == '\n' || c == '\r' || c == '\U{2028}' || c == '\U{2029}'
  }

  predicate IsHeader(line: string) {
    && |line| >= 2 && line[0] == '[' && line[|line| - 1] == ']'
    && forall i :: 0 < i < |line| - 1 ==> !Terminator(line[i])
  }

  /** The section a line is in, and how many peer headers came before, less one. */
  datatype Place = Place(section: string, peer: int)

  function Enter(at: Place, raw: string): Place {
    var line := Trim(raw);
    if !IsHeader(line) then at
    else
      var section := Lower(Trim(line[1..|line| - 1]));
      Place(section, if section == "peer" then at.peer + 1 else at.peer)
  }

  function SettingOf(line: string): string {
    if DIRECTIVE <= line then Trim(line[|DIRECTIVE|..]) else line
  }

  /** Which form field a line sets, if any. */
  function FieldOf(raw: string, at: Place, peerIndex: int): Option<Field> {
    FieldIn(Trim(raw), at, peerIndex)
  }

  function FieldIn(line: string, at: Place, peerIndex: int): Option<Field> {
    var setting := SettingOf(line);
    var eq := IndexOf(setting, '=');
    if IsHeader(line) || eq < 0 then None
    else
      var key := Trim(setting[..eq]);
      if DIRECTIVE <= line then TransportField(key)
      else if line[0] == '#' || line[0] == ';' then None
      else if at.section == "interface" then InterfaceField(Lower(key))
      else if at.section == "peer" && at.peer == peerIndex then PeerField(Lower(key))
      else None
  }

  function ValueOf(raw: string): string {
    var setting := SettingOf(Trim(raw));
    Trim(setting[IndexOf(setting, '=') + 1..])
  }

  /** Where a field can be set. */
  predicate Here(f: Field, at: Place, peerIndex: int) {
    if f in TRANSPORT_FIELDS then true
    else if f in INTERFACE_FIELDS then at.section == "interface"
    else at.section == "peer" && at.peer == peerIndex
  }

  function PlaceAfter(raws: seq<string>): Place {
    if raws == [] then Place("", -1) else Enter(PlaceAfter(raws[..|raws| - 1]), raws[|raws| - 1])
  }

  function Merge(f: Field, current: string, value: string): string {
    if IsList(f) && current != "" then current + ", " + value else value
  }

  /** What the form shows for a field. */
  function Read(raws: seq<string>, peerIndex: int, f: Field): string {
    if raws == [] then Default(f)
    else
      var before, raw := raws[..|raws| - 1], raws[|raws| - 1];
      var current := Read(before, peerIndex, f);
      if FieldOf(raw, PlaceAfter(before), peerIndex) == Some(f) then Merge(f, current, ValueOf(raw)) else current
  }

  predicate Occurs(raws: seq<string>, peerIndex: int, f: Field) {
    && raws != []
    && var before := raws[..|raws| - 1];
       Occurs(before, peerIndex, f) || FieldOf(raws[|raws| - 1], PlaceAfter(before), peerIndex) == Some(f)
  }

  function PeerCount(raws: seq<string>): nat {
    if raws == [] then 0
    else
      var n := |raws| - 1;
      PeerCount(raws[..n]) + if IsHeader(Trim(raws[n])) && PlaceAfter(raws).section == "peer" then 1 else 0
  }

  /** Some header opens a section in which the field can be set. */
  predicate HasSection(raws: seq<string>, peerIndex: int, f: Field) {
    && raws != []
    && var n := |raws| - 1;
       HasSection(raws[..n], peerIndex, f) || (IsHeader(Trim(raws[n])) && Here(f, PlaceAfter(raws), peerIndex))
  }

  // ---- One line written for one field ----

  /** The line that sets a field: none for an empty value. */
  function Setting(f: Field, value: string, ending: string): seq<string> {
    if value == "" then []
    else if f in TRANSPORT_FIELDS then [DIRECTIVE + (" " + (Name(f) + "=" + value)) + ending]
    else [Name(f) + " = " + value + ending]
  }

  predicate Plain(name: string) {
    && Tight(name) && name[0] != '[' && name[0] != '#' && name[0] != ';'
    && forall i :: 0 <= i < |name| ==> name[i] != '=' && name[i] != '\n'
  }

  lemma FirstEquals(name: string, rest: string)
    requires forall i :: 0 <= i < |name| ==> name[i] != '='
    ensures IndexOf(name + "=" + rest, '=') == |name|
  {
    var s := name + "=" + rest;
    assert s[|name|] == '=' && forall i :: 0 <= i < |name| ==> s[i] == name[i];
  }

  lemma NamedLine(name: string, value: string, ending: string)
    requires Plain(name) && Tight(value) && Blank(ending)
    ensures var line := name + " = " + value;
            && Trim(name + " = " + value + ending) == line
            && !IsHeader(line) && !(DIRECTIVE <= line) && line[0] != '#' && line[0] != ';'
            && IndexOf(line, '=') == |name| + 1
            && Trim(line[..|name| + 1]) == name && Trim(line[|name| + 2..]) == value
  {
    hide Trim, IndexOf;
    var line := name + " = " + value;
    assert "" + line + ending == line + ending;
    TrimFinds("", line, ending);
    assert line == (name + " ") + "=" + (" " + value);
    FirstEquals(name + " ", " " + value);
    assert line[..|name| + 1] == "" + name + " " && line[|name| + 2..] == " " + value + "";
    TrimFinds("", name, " ");
    TrimFinds(" ", value, "");
    assert line[0] == name[0] && DIRECTIVE[0] == '#';
  }

  lemma PairSplits(name: string, value: string)
    requires Plain(name) && Tight(value)
    ensures var setting := name + "=" + value;
            && Tight(setting) && IndexOf(setting, '=') == |name|
            && Trim(setting[..|name|]) == name && Trim(setting[|name| + 1..]) == value
  {
    hide Trim, Blank, IndexOf;
    var setting := name + "=" + value;
    FirstEquals(name, value);
    TrimTight(name);
    TrimTight(value);
    assert setting[..|name|] == name && setting[|name| + 1..] == value;
  }

  lemma DirectiveLine(setting: string, ending: string)
    requires Tight(setting) && Blank(ending)
    ensures var line := DIRECTIVE + (" " + setting);
            Trim(line + ending) == line && !IsHeader(line) && DIRECTIVE <= line && SettingOf(line) == setting
  {
    var line := DIRECTIVE + (" " + setting);
    assert line[0] == '#' && line[|line| - 1] == setting[|setting| - 1];
    assert "" + line + ending == line + ending;
    TrimFinds("", line, ending);
    assert line[|DIRECTIVE|..] == " " + setting + "";
    TrimFinds(" ", setting, "");
  }

  lemma InterfaceNamesArePlain(f: Field)
    requires f in INTERFACE_FIELDS
    ensures Plain(Name(f))
  {
  }

  lemma KeepaliveIsPlain()
    ensures Plain("PersistentKeepalive")
  {
  }

  lemma PeerNamesArePlain(f: Field)
    requires f in PEER_FIELDS
    ensures Plain(Name(f))
  {
    if f == Keepalive {
      hide Plain;
      KeepaliveIsPlain();
    }
  }

  lemma TransportNames(f: Field)
    requires f in TRANSPORT_FIELDS
    ensures Plain(Name(f)) && TransportField(Name(f)) == Some(f)
  {
  }

  lemma InterfaceNames(f: Field)
    requires f in INTERFACE_FIELDS
    ensures InterfaceField(Lower(Name(f))) == Some(f)
  {
    match f
    case PrivateKey => assert Lower("PrivateKey") == "privatekey";
    case Addresses => assert Lower("Address") == "address";
    case ListenPort => assert Lower("ListenPort") == "listenport";
    case Dns => assert Lower("DNS") == "dns";
    case Mtu => assert Lower("MTU") == "mtu" && "mtu"[0] != "dns"[0];
  }

  lemma PeerNames(f: Field)
    requires f in PEER_FIELDS
    ensures PeerField(Lower(Name(f))) == Some(f)
  {
    match f
    case PeerPublicKey => assert Lower("PublicKey") == "publickey";
    case PresharedKey => assert Lower("PresharedKey") == "presharedkey";
    case AllowedIPs => assert Lower("AllowedIPs") == "allowedips";
    case Endpoint => assert Lower("Endpoint") == "endpoint";
    case Keepalive => assert Lower("PersistentKeepalive") == "persistentkeepalive";
  }

  lemma NameIsPlain(f: Field)
    ensures Plain(Name(f))
  {
    hide Name, Plain;
    if f in TRANSPORT_FIELDS {
      TransportNames(f);
    } else if f in INTERFACE_FIELDS {
      InterfaceNamesArePlain(f);
    } else {
      PeerNamesArePlain(f);
    }
  }

  /** A written setting is one whole line. */
  lemma SettingIsLine(f: Field, value: string, ending: string)
    requires value != "" && '\n' !in value && (ending == "\n" || ending == "\r\n")
    ensures var raw := Setting(f, value, ending)[0]; IsLine(raw) && Ends(raw)
  {
    hide Name, Tight;
    NameIsPlain(f);
    var raw := Setting(f, value, ending)[0];
    var front := raw[..|raw| - |ending|];
    assert f in TRANSPORT_FIELDS ==> front == DIRECTIVE + (" " + (Name(f) + "=" + value));
    assert f !in TRANSPORT_FIELDS ==> front == Name(f) + " = " + value;
    assert '\n' !in front;
    assert raw == front + ending;
  }

  /** A written setting is read back, wherever its field can be set. */
  lemma SettingReads(f: Field, value: string, ending: string, at: Place, peerIndex: int)
    requires Tight(value) && Blank(ending) && Here(f, at, peerIndex)
    ensures var raw := Setting(f, value, ending)[0];
            FieldOf(raw, at, peerIndex) == Some(f) && ValueOf(raw) == value && !IsHeader(Trim(raw))
  {
    hide Name, Plain, IsHeader, Blank, Trim, InterfaceField, PeerField, TransportField, Lower, IndexOf;
    if f in TRANSPORT_FIELDS {
      TransportNames(f);
      PairSplits(Name(f), value);
      DirectiveLine(Name(f) + "=" + value, ending);
    } else {
      if f in INTERFACE_FIELDS {
        InterfaceNamesArePlain(f);
        InterfaceNames(f);
      } else {
        PeerNamesArePlain(f);
        PeerNames(f);
      }
      NamedLine(Name(f), value, ending);
    }
  }

  /** ... and a peer setting in another peer's section sets nothing. */
  lemma SettingElsewhere(f: Field, value: string, ending: string, at: Place, peerIndex: int)
    requires Tight(value) && Blank(ending) && f in PEER_FIELDS && at.section == "peer" && at.peer != peerIndex
    ensures FieldOf(Setting(f, value, ending)[0], at, peerIndex) == None
  {
    hide Name, Plain, IsHeader, Blank, Trim, InterfaceField, PeerField, TransportField, Lower, IndexOf;
    PeerNamesArePlain(f);
    NamedLine(Name(f), value, ending);
  }

  // ---- Reading ----

  /** One line as the editor sees it; the place is the one after a header. */
  datatype Line = Line(raw: string, at: Place, header: bool, field: Option<Field>, value: string)

  function LineAt(raws: seq<string>, peerIndex: int, i: nat): Line
    requires i < |raws|
  {
    var raw := raws[i];
    Line(raw, PlaceAfter(raws[..i + 1]), IsHeader(Trim(raw)), FieldOf(raw, PlaceAfter(raws[..i]), peerIndex),
         if IsHeader(Trim(raw)) then "" else ValueOf(raw))
  }

  /** A line that sets a field is no header, and stands where the field can be set. */
  lemma FieldPlace(raw: string, at: Place, peerIndex: int)
    ensures FieldOf(raw, at, peerIndex).Some? ==>
              !IsHeader(Trim(raw)) && Here(FieldOf(raw, at, peerIndex).value, at, peerIndex)
  {
    hide IsHeader, Trim, IndexOf, Lower;
  }

  lemma Append(raws: seq<string>, raw: string, peerIndex: int, f: Field)
    ensures PlaceAfter(raws + [raw]) == Enter(PlaceAfter(raws), raw)
    ensures Read(raws + [raw], peerIndex, f) ==
            if FieldOf(raw, PlaceAfter(raws), peerIndex) == Some(f)
            then Merge(f, Read(raws, peerIndex, f), ValueOf(raw)) else Read(raws, peerIndex, f)
  {
  }

  lemma Upto(raws: seq<string>, i: nat)
    requires i < |raws|
    ensures raws[..i + 1] == raws[..i] + [raws[i]]
  {
  }

  /** Every line with the section and the peer it is in, and the field it sets there. */
  method DocumentLines(text: string, peerIndex: int) returns (lines: seq<Line>)
    ensures |lines| == |Raws(text)|
    ensures forall i :: 0 <= i < |lines| ==> lines[i] == LineAt(Raws(text), peerIndex, i)
  {
    hide IsHeader, Trim, IndexOf, Raws, FieldOf, ValueOf;
    var raws := Raws(text);
    var at := Place("", -1);
    lines := [];
    for i := 0 to |raws|
      invariant |lines| == i && at == PlaceAfter(raws[..i])
      invariant forall j :: 0 <= j < i ==> lines[j] == LineAt(raws, peerIndex, j)
    {
      var raw := raws[i];
      Upto(raws, i);
      Append(raws[..i], raw, peerIndex, Carrier);
      var field, header := FieldOf(raw, at, peerIndex), IsHeader(Trim(raw));
      at := Enter(at, raw);
      lines := lines + [Line(raw, at, header, field, if header then "" else ValueOf(raw))];
    }
  }

  method ParseConf(text: string, peerIndex: int) returns (draft: Draft, peerCount: nat)
    ensures forall f :: draft(f) == Read(Raws(text), peerIndex, f)
    ensures peerCount == PeerCount(Raws(text))
  {
    hide IsHeader, Trim, IndexOf, Raws, FieldOf, ValueOf, Enter, Merge, Default, Here;
    var lines := DocumentLines(text, peerIndex);
    ghost var raws := Raws(text);
    draft, peerCount := Default, 0;
    for i := 0 to |lines|
      invariant forall f :: draft(f) == Read(raws[..i], peerIndex, f)
      invariant peerCount == PeerCount(raws[..i])
    {
      var line := lines[i];
      Upto(raws, i);
      forall f {
        Append(raws[..i], raws[i], peerIndex, f);
      }
      CountOne(raws[..i], raws[i]);
      FieldPlace(raws[i], PlaceAfter(raws[..i]), peerIndex);
      if line.field.Some? {
        draft := With(draft, line.field.value, Merge(line.field.value, draft(line.field.value), line.value));
      }
      if line.header && line.at.section == "peer" {
        peerCount := peerCount + 1;
      }
    }
    assert raws[..|lines|] == raws;
  }

  function With(draft: Draft, f: Field, value: string): Draft {
    g => if g == f then value else draft(g)
  }

  lemma CountOne(raws: seq<string>, raw: string)
    ensures PeerCount(raws + [raw]) ==
            PeerCount(raws) + if IsHeader(Trim(raw)) && PlaceAfter(raws + [raw]).section == "peer" then 1 else 0
  {
  }
}
