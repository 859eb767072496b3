/** The user profile's `clean` step: HTML is stripped from three text
    fields and the Telegram user name is made to start with `@`. */
module Profiles {
  import opened Common

  /** The fields `clean` visits, in the order it visits them. */
  datatype Field = Patronymic | JobTitle | TelegramUsername

  const CleanedFields: seq<Field> := [Patronymic, JobTitle, TelegramUsername]

  /** The values of the cleaned fields. The patronymic may be NULL; the
      other two are plain (possibly empty) strings. */
  datatype Profile = Profile(patronymic: Option<string>, jobTitle: string, telegramUsername: string)

  /** The name with `@` put in front, unless it is empty or already starts with `@`. */
  function AtPrefixed(name: string): string
  {
    if name != "" && name[0] != '@' then "@" + name else name
  }

  /** `if value: setattr(self, field, strip_tags(value))` for one field. */
  function StripField(p: Profile, f: Field, stripTags: string -> string): Profile
  {
    match f
    case Patronymic =>
      if p.patronymic.Some? && p.patronymic.value != "" then p.(patronymic := Some(stripTags(p.patronymic.value))) else p
    case JobTitle =>
      if p.jobTitle != "" then p.(jobTitle := stripTags(p.jobTitle)) else p
    case TelegramUsername =>
      if p.telegramUsername != "" then p.(telegramUsername := stripTags(p.telegramUsername)) else p
  }

  /** One pass of the loop: strip the field, then check the Telegram name's `@`. */
  function CleanStep(p: Profile, f: Field, stripTags: string -> string): Profile
  {
    var q := StripField(p, f, stripTags);
    q.(telegramUsername := AtPrefixed(q.telegramUsername))
  }

  /** The passes of the loop over a prefix of the visited fields. */
  function CleanFields(p: Profile, fields: seq<Field>, stripTags: string -> string): Profile
  {
    if fields == [] then p
    else CleanStep(CleanFields(p, fields[..|fields| - 1], stripTags), fields[|fields| - 1], stripTags)
  }

  /** The profile after `clean`. */
  function Cleaned(p: Profile, stripTags: string -> string): Profile
  {
    CleanFields(p, CleanedFields, stripTags)
  }

  /** Field by field, what `clean` does. Because the `@` check runs inside the
      loop, the name is prefixed first and `strip_tags` then sees the prefixed
      name; a name that `strip_tags` empties stays empty. */
  lemma CleanedFieldwise(p: Profile, stripTags: string -> string)
    ensures Cleaned(p, stripTags).patronymic
         == (if p.patronymic.Some? && p.patronymic.value != "" then Some(stripTags(p.patronymic.value)) else p.patronymic)
    ensures Cleaned(p, stripTags).jobTitle == (if p.jobTitle != "" then stripTags(p.jobTitle) else p.jobTitle)
    ensures Cleaned(p, stripTags).telegramUsername
         == (if p.telegramUsername != "" then AtPrefixed(stripTags(AtPrefixed(p.telegramUsername))) else "")
  {
    var fs := CleanedFields;
    assert fs[..2][..1] == fs[..1] && fs[..1][..0] == [] && fs[..3] == fs;
    var p1 := CleanStep(p, Patronymic, stripTags);
    var p2 := CleanStep(p1, JobTitle, stripTags);
    assert CleanFields(p, fs[..1], stripTags) == p1;
    assert CleanFields(p, fs[..2], stripTags) == p2;
    assert Cleaned(p, stripTags) == CleanStep(p2, TelegramUsername, stripTags);
  }

  /** After `clean` the Telegram name is empty or starts with `@`. */
  lemma CleanedTelegramPrefixed(p: Profile, stripTags: string -> string)
    ensures var t := Cleaned(p, stripTags).telegramUsername;
      t == "" || t[0] == '@'
  {
    CleanedFieldwise(p, stripTags);
  }

  /** Each empty or NULL field comes out of `clean` as it went in, whatever the others hold. */
  lemma CleanKeepsEmptyFields(p: Profile, stripTags: string -> string)
    ensures (p.patronymic.None? || p.patronymic == Some("")) ==> Cleaned(p, stripTags).patronymic == p.patronymic
    ensures p.jobTitle == "" ==> Cleaned(p, stripTags).jobTitle == ""
    ensures p.telegramUsername == "" ==> Cleaned(p, stripTags).telegramUsername == ""
  {
    CleanedFieldwise(p, stripTags);
  }

  /** A name that already starts with `@` and that `strip_tags` leaves alone is not changed. */
  lemma CleanKeepsPrefixedName(p: Profile, stripTags: string -> string)
    requires p.telegramUsername != "" && p.telegramUsername[0] == '@'
    requires stripTags(p.telegramUsername) == p.telegramUsername
    ensures Cleaned(p, stripTags).telegramUsername == p.telegramUsername
  {
    CleanedFieldwise(p, stripTags);
  }

  /** `clean` is idempotent when `strip_tags` is idempotent and commutes with a leading `@`. */
  lemma CleanIdempotent(p: Profile, stripTags: string -> string)
    requires forall s :: stripTags(stripTags(s)) == stripTags(s)
    requires forall s :: stripTags("@" + s) == "@" + stripTags(s)
    ensures Cleaned(Cleaned(p, stripTags), stripTags) == Cleaned(p, stripTags)
  {
    var q := Cleaned(p, stripTags);
    CleanedFieldwise(p, stripTags);
    CleanedFieldwise(q, stripTags);
    var t := p.telegramUsername;
    if t != "" {
      var t1 := AtPrefixed(t);
      var t2 := stripTags(t1);
      if t2 != "" && t2[0] != '@' {
        assert q.telegramUsername == "@" + t2;
        assert stripTags("@" + t2) == "@" + stripTags(t2);
      }
    }
  }

  /** The profile model: `clean` rewrites its fields in place. */
  class CustomUser {
    var patronymic: Option<string>
    var jobTitle: string
    var telegramUsername: string

    constructor (patronymic: Option<string>, jobTitle: string, telegramUsername: string)
      ensures Fields() == Profile(patronymic, jobTitle, telegramUsername)
    {
      this.patronymic := patronymic;
      this.jobTitle := jobTitle;
      this.telegramUsername := telegramUsername;
    }

    function Fields(): Profile
      reads this
    {
      Profile(patronymic, jobTitle, telegramUsername)
    }

    /** Visits the three fields in order, stripping each non-empty one and
        then making a non-empty Telegram name start with `@`. */
    method Clean(stripTags: string -> string)
      modifies this
      ensures Fields() == Cleaned(old(Fields()), stripTags)
    {
      for i := 0 to |CleanedFields|
        invariant Fields() == CleanFields(old(Fields()), CleanedFields[..i], stripTags)
      {
        var field := CleanedFields[i];
        match field {
          case Patronymic =>
            if patronymic.Some? && patronymic.value != "" {
              patronymic := Some(stripTags(patronymic.value));
            }
          case JobTitle =>
            if jobTitle != "" {
              jobTitle := stripTags(jobTitle);
            }
          case TelegramUsername =>
            if telegramUsername != "" {
              telegramUsername := stripTags(telegramUsername);
            }
        }
        if telegramUsername != "" && telegramUsername[0] != '@' {
          telegramUsername := "@" + telegramUsername;
        }
        assert CleanedFields[..i + 1][..i] == CleanedFields[..i];
      }
      assert CleanedFields[..|CleanedFields|] == CleanedFields;
    }
  }
}
