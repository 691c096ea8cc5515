/**
 * The identity check `connect_to_vna` applies to the reply of the IEEE 488.2
 * identification query `*IDN?` (section 10.14 of IEEE 488.2): all `"` are
 * removed, the text is split on `,`, and field 0 must be the manufacturer and
 * field 1 the model.  Field 0 is compared before field 1 is read, so a reply
 * that is exactly the manufacturer has no field 1 and raises `IndexError`.
 */
module Identity {
  import opened Text

  const Manufacturer: string := "Anritsu"
  const Model: string := "MS2026C/2"

  /** What the two asserts of the check make of a reply. */
  datatype Verdict =
    | Genuine            // both asserts hold
    | Mismatch           // an assert fails: AssertionError, caught
    | MissingModelField  // `response[1]` on a one-field list: IndexError, not caught

  function Unquoted(reply: string): string {
    RemoveChar(reply, '"')
  }

  /**
   * The check accepts exactly the replies that name the expected device, and
   * raises the uncaught `IndexError` exactly when the unquoted reply is the
   * manufacturer alone; every other reply is a mismatch.
   */
  function CheckIdentity(reply: string): (v: Verdict)
    ensures v == Genuine <==> NamesExpectedDevice(Unquoted(reply))
    ensures v == MissingModelField <==> Unquoted(reply) == Manufacturer
  {
    var text := Unquoted(reply);
    var fields := Split(text, ',');
    ExpectedDeviceFields(text);
    ManufacturerOnlyFields(text);
    if fields[0] != Manufacturer then Mismatch
    else if |fields| < 2 then MissingModelField
    else if fields[1] != Model then Mismatch
    else Genuine
  }

  /**
   * The text begins with manufacturer `m`, a comma and model `d`, and the
   * model ends there or at a further comma.
   */
  predicate NamesDevice(text: string, m: string, d: string) {
    var head := m + [','] + d;
    && |head| <= |text|
    && text[..|head|] == head
    && (|text| == |head| || text[|head|] == ',')
  }

  predicate NamesExpectedDevice(text: string) {
    NamesDevice(text, Manufacturer, Model)
  }

  lemma FieldsWhenNamed(text: string, m: string, d: string)
    requires ',' !in m && ',' !in d
    requires NamesDevice(text, m, d)
    ensures var fields := Split(text, ',');
      |fields| >= 2 && fields[0] == m && fields[1] == d
  {
    var head := m + [','] + d;
    var tail := text[|head|..];
    assert text == m + [','] + (d + tail);
    SplitAtFirst(m, ',', d + tail);
    if tail == [] {
      assert d + tail == d;
      SplitWithoutSeparator(d, ',');
    } else {
      assert d + tail == d + [','] + tail[1..];
      SplitAtFirst(d, ',', tail[1..]);
    }
  }

  lemma NamedWhenFields(text: string, m: string, d: string)
    requires var fields := Split(text, ',');
      |fields| >= 2 && fields[0] == m && fields[1] == d
    ensures NamesDevice(text, m, d)
  {
    var fields := Split(text, ',');
    var head := m + [','] + d;
    JoinSplit(text, ',');
    var rest := fields[1..];
    assert Join(fields, ',') == m + [','] + Join(rest, ',');
    if |rest| == 1 {
      assert text == head;
    } else {
      assert Join(rest, ',') == d + [','] + Join(rest[1..], ',');
      assert text == head + ([','] + Join(rest[1..], ','));
    }
  }

  /** The first two fields are the manufacturer and the model exactly when the text names the expected device. */
  lemma ExpectedDeviceFields(text: string)
    ensures var fields := Split(text, ',');
      |fields| >= 2 && fields[0] == Manufacturer && fields[1] == Model <==> NamesExpectedDevice(text)
  {
    assert ',' !in Manufacturer && ',' !in Model;
    if NamesExpectedDevice(text) {
      FieldsWhenNamed(text, Manufacturer, Model);
    }
    var fields := Split(text, ',');
    if |fields| >= 2 && fields[0] == Manufacturer && fields[1] == Model {
      NamedWhenFields(text, Manufacturer, Model);
    }
  }

  /** The text splits into the manufacturer alone exactly when it is the manufacturer. */
  lemma ManufacturerOnlyFields(text: string)
    ensures var fields := Split(text, ',');
      fields[0] == Manufacturer && |fields| < 2 <==> text == Manufacturer
  {
    var fields := Split(text, ',');
    if text == Manufacturer {
      assert ',' !in Manufacturer;
      SplitWithoutSeparator(text, ',');
    }
    if |fields| == 1 {
      JoinSplit(text, ',');
    }
  }
}
