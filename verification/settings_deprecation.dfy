/**
  The system check of `django/core/checks/settings_deprecation.py`: one
  warning `settings.W001` for every attribute of the settings object whose
  name is in the module's tuple of deprecated setting names. Which
  attributes `vars(settings)` yields, and in which order, is the input.
 */
module SettingsDeprecation {
  import opened Common

  /** A `checks.Warning` with no object attached. */
  datatype Warning = Warning(msg: string, hint: string, id: string)

  /** The tuple of deprecated names, in source order; some names occur twice. */
  const DeprecatedSettingsList: seq<string> := [
    "TRANSACTIONS_MANAGED",
    "SITE_ID", "AUTH_PROFILE_MODULE", "CSRF_COOKIE_PATH",
    "DATABASE_ENGINE",
    "SOUTH_DATABASE_ADAPTER", "SOUTH_DATABASE_ADAPTERS", "SOUTH_AUTO_FREEZE_APP",
    "SOUTH_TESTS_MIGRATE", "SOUTH_LOGGING_ON", "SOUTH_LOGGING_FILE",
    "SOUTH_MIGRATION_MODULES", "SOUTH_USE_PYC",
    "TEMPLATE_DIRS", "TEMPLATE_CONTEXT_PROCESSORS", "TEMPLATE_LOADERS",
    "TEMPLATE_DEBUG", "ALLOWED_INCLUDE_ROOTS", "USE_ETAGS",
    "FILE_UPLOAD_HANDLERS",
    "SECURE_PROXY_SSL_HEADER",
    "DEFAULT_CONTENT_TYPE", "FILE_CHARSET",
    "SECURE_BROWSER_XSS_FILTER",
    "PASSWORD_RESET_TIMEOUT_DAYS",
    "DEFAULT_FILE_STORAGE",
    "USE_L10N", "DEFAULT_HASHING_ALGORITHM",
    "PASSWORD_RESET_TIMEOUT_DAYS", "DEFAULT_STORAGE_CLASS",
    "MIDDLEWARE_CLASSES", "FILE_UPLOAD_HANDLERS", "ADMINS", "MANAGERS",
    "USE_DEPRECATED_PYTZ", "DATABASE_OPTIONS", "DEFAULT_FILE_STORAGE", "STATICFILES_STORAGE"
  ]

  const W001: string := "settings.W001"
  const MsgTail: string := " in your Django settings file." + " This attribute is deprecated."
  const Hint: string := "Please refer to the documentation and remove/replace this attribute."

  /** The warning for one deprecated attribute; its message quotes the name with `repr`. */
  function WarningFor(attribute: string): (w: Warning)
    ensures w.id == W001 && w.hint == Hint
    ensures StartsWith(w.msg, "You still use ")
  {
    PrefixOfConcat("You still use ", Repr(attribute) + MsgTail);
    Warning("You still use " + Repr(attribute) + MsgTail, Hint, W001)
  }

  /**
    The names among the settings attributes `attributes` that are in
    `deprecated`, in the order the attributes are enumerated. The test is
    membership, so the tuple's order and repetitions do not show.
   */
  function Flagged(attributes: seq<string>, deprecated: seq<string>): (r: seq<string>)
    ensures |r| <= |attributes|
    decreases |attributes|
  {
    if attributes == [] then []
    else
      var rest := Flagged(attributes[1..], deprecated);
      if attributes[0] in deprecated then [attributes[0]] + rest else rest
  }

  /** A name is flagged exactly when it is an attribute and deprecated. */
  lemma {:induction false} FlaggedMembers(attributes: seq<string>, deprecated: seq<string>)
    ensures forall a :: a in Flagged(attributes, deprecated) <==> a in attributes && a in deprecated
    decreases |attributes|
  {
    if attributes != [] {
      FlaggedMembers(attributes[1..], deprecated);
      assert forall a :: a in attributes <==> a == attributes[0] || a in attributes[1..];
    }
  }

  /** One warning per flagged attribute, in the same order. */
  function Warnings(attributes: seq<string>, deprecated: seq<string>): (r: seq<Warning>)
    ensures |r| == |Flagged(attributes, deprecated)| <= |attributes|
    ensures forall i :: 0 <= i < |r| ==> r[i] == WarningFor(Flagged(attributes, deprecated)[i])
    ensures forall w :: w in r ==> w.id == W001 && w.hint == Hint
  {
    var f := Flagged(attributes, deprecated);
    seq(|f|, i requires 0 <= i < |f| => WarningFor(f[i]))
  }

  /** `deprecated_settings_variables()` over the attributes of the settings object. */
  function DeprecatedSettingsVariables(attributes: seq<string>): (r: seq<Warning>)
    ensures forall w :: w in r ==> w.id == W001 && w.hint == Hint
    ensures r == [] <==> forall a :: a in attributes ==> a !in DeprecatedSettingsList
  {
    FlaggedEmptyIff(attributes, DeprecatedSettingsList);
    Warnings(attributes, DeprecatedSettingsList)
  }

  /**
    Flagging follows the enumeration order: the names flagged in a split
    list of attributes are those of the first part, then those of the second.
   */
  lemma {:induction false} FlaggedAppend(a: seq<string>, b: seq<string>, deprecated: seq<string>)
    ensures Flagged(a + b, deprecated) == Flagged(a, deprecated) + Flagged(b, deprecated)
    decreases |a|
  {
    if a == [] {
      assert a + b == b;
    } else {
      var x, rest := a[0], a[1..];
      FlaggedAppend(rest, b, deprecated);
      var head := if x in deprecated then [x] else [];
      var fr, fb := Flagged(rest, deprecated), Flagged(b, deprecated);
      assert a == [x] + rest;
      assert a + b == [x] + (rest + b);
      FlaggedCons(x, rest, deprecated);
      FlaggedCons(x, rest + b, deprecated);
      assert head + (fr + fb) == (head + fr) + fb;
    }
  }

  /** The first attribute is flagged, or not, ahead of the rest. */
  lemma FlaggedCons(x: string, rest: seq<string>, deprecated: seq<string>)
    ensures Flagged([x] + rest, deprecated) == (if x in deprecated then [x] else []) + Flagged(rest, deprecated)
  {
    assert ([x] + rest)[0] == x && ([x] + rest)[1..] == rest;
  }

  /** Nothing is flagged exactly when no attribute is deprecated. */
  lemma FlaggedEmptyIff(attributes: seq<string>, deprecated: seq<string>)
    ensures Flagged(attributes, deprecated) == [] <==> forall a :: a in attributes ==> a !in deprecated
  {
    FlaggedMembers(attributes, deprecated);
    var f := Flagged(attributes, deprecated);
    if f != [] {
      assert f[0] in f;
    }
  }

  /** One attribute is flagged exactly when it is deprecated. */
  lemma FlaggedSingle(a: string, deprecated: seq<string>)
    ensures Flagged([a], deprecated) == (if a in deprecated then [a] else [])
  {
    assert [a][1..] == [];
  }

  /** No name occurs twice. */
  predicate Distinct(s: seq<string>) {
    forall i, j :: 0 <= i < j < |s| ==> s[i] != s[j]
  }

  /**
    The attributes are the keys of a dict, so distinct; then each
    deprecated attribute is flagged exactly once.
   */
  lemma {:induction false} FlaggedOnce(attributes: seq<string>, deprecated: seq<string>)
    requires Distinct(attributes)
    ensures Distinct(Flagged(attributes, deprecated))
    decreases |attributes|
  {
    if attributes != [] {
      var x, rest := attributes[0], attributes[1..];
      assert Distinct(rest) by {
        forall i, j | 0 <= i < j < |rest| ensures rest[i] != rest[j] {
          assert rest[i] == attributes[i + 1] && rest[j] == attributes[j + 1];
        }
      }
      FlaggedOnce(rest, deprecated);
      FlaggedMembers(rest, deprecated);
      var fr := Flagged(rest, deprecated);
      assert x !in rest by {
        forall k | 0 <= k < |rest| ensures rest[k] != x {
          assert rest[k] == attributes[k + 1];
        }
      }
      if x in deprecated {
        var f := [x] + fr;
        assert Flagged(attributes, deprecated) == f;
        forall i, j | 0 <= i < j < |f| ensures f[i] != f[j] {
          assert f[j] == fr[j - 1] && fr[j - 1] in fr;
          if i > 0 {
            assert f[i] == fr[i - 1];
          } else {
            assert f[i] == x;
          }
        }
      } else {
        assert Flagged(attributes, deprecated) == fr;
      }
    }
  }

  /**
    Only which names the tuple holds matters: two tuples with the same
    members (in any order, with any repetitions) flag the same attributes.
   */
  lemma {:induction false} MembershipOnly(attributes: seq<string>, d1: seq<string>, d2: seq<string>)
    requires forall x :: x in d1 <==> x in d2
    ensures Flagged(attributes, d1) == Flagged(attributes, d2)
    ensures Warnings(attributes, d1) == Warnings(attributes, d2)
    decreases |attributes|
  {
    if attributes != [] {
      MembershipOnly(attributes[1..], d1, d2);
    }
  }

  /** Repeating a name already in the tuple, as the source does, changes nothing. */
  lemma RepeatedNameHarmless(attributes: seq<string>, deprecated: seq<string>, x: string)
    requires x in deprecated
    ensures Warnings(attributes, deprecated + [x]) == Warnings(attributes, deprecated)
  {
    MembershipOnly(attributes, deprecated + [x], deprecated);
  }

  /** The message for a name with no quote, backslash or control character. */
  lemma PlainMessage(name: string)
    requires PlainText(name)
    ensures WarningFor(name).msg == "You still use " + "'" + name + "'" + " in your Django settings file." + " This attribute is deprecated."
  {
    ReprPlain(name);
    var head, tail := "You still use ", MsgTail;
    assert head + ("'" + name + "'") + tail == head + "'" + name + "'" + tail;
  }

  /**
    Settings holding `TRANSACTIONS_MANAGED` and otherwise only names that
    are not deprecated give exactly the one warning.
   */
  lemma {:induction false} TransactionsManagedWarns(others: seq<string>)
    requires forall a :: a in others ==> a !in DeprecatedSettingsList
    ensures DeprecatedSettingsVariables(["TRANSACTIONS_MANAGED"] + others) == [WarningFor("TRANSACTIONS_MANAGED")]
  {
    var name := "TRANSACTIONS_MANAGED";
    assert name == DeprecatedSettingsList[0];
    FlaggedAppend([name], others, DeprecatedSettingsList);
    FlaggedSingle(name, DeprecatedSettingsList);
    FlaggedEmptyIff(others, DeprecatedSettingsList);
    assert Flagged([name] + others, DeprecatedSettingsList) == [name];
  }
}
