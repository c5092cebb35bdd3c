/** The avatar drawing's reading of the equipped items: slot fallbacks, id
    normalisation and defaults. */
module Avatar {
  import opened Common
  import Text
  import Server

  /** `norm`: a missing or empty id is ""; otherwise trimmed, lowered, and
      each run of white space turned into one '-'. */
  function Norm(id: Option<string>): string {
    if id.None? || id.value == "" then "" else Text.Dasherize(Text.Lower(Text.Trim(Text.Js, id.value)))
  }

  /** A normalised id has no white space and no capitals, the missing and
      the empty id normalise to "", and normalising again changes
      nothing. */
  lemma NormClean(id: Option<string>)
    ensures Norm(None) == "" && Norm(Some("")) == ""
    ensures Text.NoSpace(Text.Js, Norm(id)) && Text.NoUpper(Norm(id))
    ensures Norm(Some(Norm(id))) == Norm(id)
  {
    var r := Norm(id);
    if id.Some? && id.value != "" {
      var trimmed := Text.Trim(Text.Js, id.value);
      Text.LowerIdempotent(trimmed);
      Text.DasherizeClean(Text.Lower(trimmed));
    }
    assert Text.NoSpace(Text.Js, r) && Text.NoUpper(r);
    if r != "" {
      assert !Text.IsSpace(Text.Js, r[0]) && !Text.IsSpace(Text.Js, r[|r| - 1]);
      Text.TrimOfTrimmed(Text.Js, r);
      Text.LowerOfLowered(r);
      Text.DasherizeOfNoSpace(r);
    }
  }

  /** `eqRaw[es] || eqRaw[en]`: the Spanish key when it holds a non-empty
      id, else whatever the English key holds. */
  function Slot(equipped: map<string, string>, es: string, en: string): (r: Option<string>)
    ensures es in equipped && equipped[es] != "" ==> r == Some(equipped[es])
    ensures !(es in equipped && equipped[es] != "") ==> r == (if en in equipped then Some(equipped[en]) else None)
  {
    if es in equipped && equipped[es] != "" then Some(equipped[es])
    else if en in equipped then Some(equipped[en]) else None
  }

  /** The four slots, each read with its Spanish and English key. */
  datatype Slots = Slots(sombrero: Option<string>, accesorio: Option<string>,
                         fondo: Option<string>, especiales: Option<string>)

  function ReadSlots(equipped: map<string, string>): Slots {
    Slots(Slot(equipped, "sombrero", "hat"), Slot(equipped, "accesorio", "accessory"),
          Slot(equipped, "fondo", "background"), Slot(equipped, "especiales", "special"))
  }

  const DefaultBackground := "atardecer"

  /** `norm(eq.fondo) || 'atardecer'` */
  function BackgroundId(equipped: map<string, string>): (r: string)
    ensures r != ""
    ensures Norm(ReadSlots(equipped).fondo) == "" ==> r == DefaultBackground
    ensures Norm(ReadSlots(equipped).fondo) != "" ==> r == Norm(ReadSlots(equipped).fondo)
  {
    var f := Norm(ReadSlots(equipped).fondo);
    if f != "" then f else DefaultBackground
  }

  /** The body drawn: the given gender, else the profile's, else "niño";
      'female' draws "niña", 'male' draws "niño" and any other value is
      used as it is. */
  function GenderKey(given: Option<string>, profile: Option<string>): (r: string)
    ensures (given.None? || given.value == "") && (profile.None? || profile.value == "") ==> r == "niño"
    ensures given == Some("female") ==> r == "niña"
    ensures given == Some("male") ==> r == "niño"
    ensures given.Some? && given.value != "" && given.value !in {"female", "male"} ==> r == given.value
    ensures (given.None? || given.value == "") && profile == Some("female") ==> r == "niña"
    ensures (given.None? || given.value == "") && profile == Some("male") ==> r == "niño"
    ensures (given.None? || given.value == "") && profile.Some? && profile.value != "" && profile.value !in {"female", "male"} ==>
              r == profile.value
  {
    var g := if given.Some? && given.value != "" then given.value
             else if profile.Some? && profile.value != "" then profile.value
             else "niño";
    if g == "female" then "niña" else if g == "male" then "niño" else g
  }

  /** The avatar's slot keys are the category tables' pairs, so an item the
      server equips in a category is what the avatar reads for it, and an
      unequipped category reads as nothing. */
  lemma EquipThenDraw(slots: map<string, string>, en: string, item: Option<string>)
    requires en in Server.CatEnToEs
    ensures Server.Equips(item) ==> Slot(Server.Equipped(slots, en, item), Server.CatEnToEs[en], en) == item
    ensures !Server.Equips(item) ==> Slot(Server.Equipped(slots, en, item), Server.CatEnToEs[en], en) == None
    ensures ReadSlots(slots) == Slots(Slot(slots, Server.CatEnToEs["hat"], "hat"),
                                      Slot(slots, Server.CatEnToEs["accessory"], "accessory"),
                                      Slot(slots, Server.CatEnToEs["background"], "background"),
                                      Slot(slots, Server.CatEnToEs["special"], "special"))
  {
  }
}
