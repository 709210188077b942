/**
 * Tabler icon naming (src/viser/_icons_generate_enum.py): the enum attribute name
 * generated for every icon file, and the run-time converter that the generated `Icon`
 * class uses to turn an attribute name back into the icon's name.
 */
module Icons {
  import opened Wrappers

  predicate IsLower(c: char) { 'a' <= c <= 'z' }
  predicate IsUpper(c: char) { 'A' <= c <= 'Z' }
  predicate IsDigit(c: char) { '0' <= c <= '9' }

  function Upper(c: char): (u: char)
    ensures IsLower(c) ==> IsUpper(u) && u as int == c as int - 32
    ensures !IsLower(c) ==> u == c
  {
    if IsLower(c) then (c as int - 32) as char else c
  }

  function Lower(c: char): (l: char)
    ensures IsUpper(c) ==> IsLower(l) && l as int == c as int + 32
    ensures !IsUpper(c) ==> l == c
  {
    if IsUpper(c) then (c as int + 32) as char else c
  }

  /** Upper-cased, with every '-' turned into '_'. */
  function EnumChars(s: string): (r: string)
    ensures |r| == |s| && '-' !in r
    ensures forall i :: 0 <= i < |s| ==> r[i] == if s[i] == '-' then '_' else Upper(s[i])
  {
    seq(|s|, i requires 0 <= i < |s| => if s[i] == '-' then '_' else Upper(s[i]))
  }

  /**
   * `enum_name_from_icon`: upper case, '-' replaced by '_', and an "ICON_" prefix when the
   * name starts with a digit (an identifier cannot). The empty name has no first character.
   */
  function EnumNameFromIcon(name: string): (r: Result<string>)
    ensures r.Ok? <==> |name| > 0
    ensures r.Ok? ==> '-' !in r.value
    ensures r.Ok? && IsDigit(name[0]) ==> r.value == "ICON_" + EnumChars(name)
    ensures r.Ok? && !IsDigit(name[0]) ==> r.value == EnumChars(name)
  {
    if |name| == 0 then Err("IndexError: string index out of range")
    else
      var upper := EnumChars(name);
      if IsDigit(upper[0]) then Ok("ICON_" + upper) else Ok(upper)
  }

  /** Lower-cased, with every '_' turned into '-'. */
  function IconChars(s: string): (r: string)
    ensures |r| == |s| && '_' !in r
    ensures forall i :: 0 <= i < |s| ==> r[i] == if s[i] == '_' then '-' else Lower(s[i])
  {
    seq(|s|, i requires 0 <= i < |s| => if s[i] == '_' then '-' else Lower(s[i]))
  }

  /** `_IconStringConverter.__getattr__`: private names raise, every other name maps to an icon name. */
  function IconFromAttribute(attr: string): (r: Result<string>)
    ensures r.Err? <==> |attr| > 0 && attr[0] == '_'
    ensures r.Ok? ==> |r.value| == |attr| && '_' !in r.value
  {
    if |attr| > 0 && attr[0] == '_' then Err("AttributeError")
    else Ok(IconChars(attr))
  }

  predicate IsIconName(name: string)
  {
    forall i :: 0 <= i < |name| ==> IsLower(name[i]) || IsDigit(name[i]) || name[i] == '-'
  }

  /**
   * Every Tabler-style icon name comes back from its enum name: unchanged when it starts
   * with a letter, and with an "icon-" prefix when it starts with a digit.
   */
  lemma EnumNameRoundTrip(name: string)
    requires IsIconName(name) && |name| > 0 && name[0] != '-'
    ensures IsDigit(name[0]) ==> IconFromAttribute(EnumNameFromIcon(name).value) == Ok("icon-" + name)
    ensures !IsDigit(name[0]) ==> IconFromAttribute(EnumNameFromIcon(name).value) == Ok(name)
  {
    var upper := EnumChars(name);
    assert IconChars(upper) == name;
    if IsDigit(name[0]) {
      assert IconChars("ICON_" + upper) == "icon-" + IconChars(upper);
    }
  }

  /**
   * The documented attribute `ICON_2FA` of the `2fa` icon resolves to "icon-2fa", which is
   * not the icon's name.
   */
  lemma DigitIconMissesItsName()
    ensures EnumNameFromIcon("2fa") == Ok("ICON_2FA")
    ensures IconFromAttribute("ICON_2FA") == Ok("icon-2fa")
    ensures IconFromAttribute(EnumNameFromIcon("2fa").value) != Ok("2fa")
  {
    var e := EnumChars("2fa");
    assert e[0] == '2' && e[1] == 'F' && e[2] == 'A';
    assert e == "2FA";
    var back := IconChars("ICON_2FA");
    assert back[0] == 'i' && back[4] == '-' && back[5] == '2' && back[6] == 'f';
    assert back == "icon-2fa";
    assert EnumNameFromIcon("2fa").value == "ICON_2FA";
    assert |"icon-2fa"| != |"2fa"|;
  }

  /** Does `attr` carry the "ICON_" prefix that the enum adds in front of a digit? */
  predicate HasDigitPrefix(attr: string)
  {
    |attr| > 5 && attr[..5] == "ICON_" && IsDigit(attr[5])
  }

  /**
   * The converter as the generated documentation describes it: the "ICON_" prefix in front
   * of a digit is dropped before lower-casing, so every enum name maps back to its icon.
   */
  function IconFromAttributeCorrected(attr: string): (r: Result<string>)
    ensures r.Err? <==> |attr| > 0 && attr[0] == '_'
    ensures r.Ok? && HasDigitPrefix(attr) ==> r.value == IconChars(attr[5..])
    ensures r.Ok? && !HasDigitPrefix(attr) ==> r.value == IconChars(attr)
  {
    if |attr| > 0 && attr[0] == '_' then Err("AttributeError")
    else if HasDigitPrefix(attr) then Ok(IconChars(attr[5..]))
    else Ok(IconChars(attr))
  }

  /**
   * With the corrected converter every icon name comes back unchanged from its enum name,
   * provided no letter-initial icon is itself named "icon-<digit>...".
   */
  lemma CorrectedRoundTrip(name: string)
    requires IsIconName(name) && |name| > 0 && name[0] != '-'
    requires !(|name| > 5 && name[..5] == "icon-" && IsDigit(name[5]))
    ensures IconFromAttributeCorrected(EnumNameFromIcon(name).value) == Ok(name)
  {
    var upper := EnumChars(name);
    assert IconChars(upper) == name;
    if IsDigit(name[0]) {
      var e := "ICON_" + upper;
      assert e[5..] == upper;
      assert HasDigitPrefix(e);
    }
  }

  /** An icon name starting with '-' gets an enum name the converter refuses. */
  lemma LeadingHyphenIsRefused(name: string)
    requires |name| > 0 && name[0] == '-'
    ensures IconFromAttribute(EnumNameFromIcon(name).value).Err?
  {
  }
}
