/** What each operation on the account store must do, attribute by attribute and address by address. */
module AccountDuties {
  import opened Options
  import opened AccountSpec
  import opened Decimals
  import opened SipUri
  import opened Configs
  import opened ConfigTrees
  import opened ConfigRoundTrip

  predicate IsText(attribute: string) {
    || attribute == "name" || attribute == "username" || attribute == "domain" || attribute == "authusername"
    || attribute == "password" || attribute == "displayname" || attribute == "outboundproxy" || attribute == "registrar"
  }

  /** The account with this ID that comes first. */
  predicate IsFirst(accounts: seq<Account>, p: nat, id: int) {
    p < |accounts| && accounts[p].id == id && forall i :: 0 <= i < p ==> accounts[i].id != id
  }

  /** Each text attribute has a field of its own; NULL is stored as the empty string. */
  lemma TextAttributes(a: Account, value: Option<string>)
    ensures var text := if value.Some? then value else Some("");
            && Assign(a, "name", value) == Some(a.(name := text))
            && Assign(a, "username", value) == Some(a.(username := text))
            && Assign(a, "domain", value) == Some(a.(domain := text))
            && Assign(a, "authusername", value) == Some(a.(authusername := text))
            && Assign(a, "password", value) == Some(a.(password := text))
            && Assign(a, "displayname", value) == Some(a.(displayname := text))
            && Assign(a, "outboundproxy", value) == Some(a.(outboundproxy := text))
            && Assign(a, "registrar", value) == Some(a.(registrar := text))
  {
  }

  lemma NumberAttributes(a: Account, value: string)
    ensures Assign(a, "id", Some(value)) == Some(a.(id := Atoi(value)))
    ensures Assign(a, "autoregister", Some(value)) == Some(a.(autoregister := Atoi(value)))
  {
  }

  /**
   Setting a text attribute of an account changes exactly the attribute of that name in the XML element that would be
   saved for it, and no other account.
   */
  lemma SetChangesOneAttribute(accounts: seq<Account>, id: int, attribute: string, value: string, p: nat)
    returns (k: nat)
    requires IsText(attribute) && IsFirst(accounts, p, id)
    ensures var (after, ok) := Set(accounts, id, attribute, Some(value));
            && ok && |after| == |accounts| && (forall i :: 0 <= i < |accounts| && i != p ==> after[i] == accounts[i])
            && k < 10 && AccountAttrs(accounts[p])[k].0 == attribute
            && AccountAttrs(after[p]) == AccountAttrs(accounts[p])[k := (attribute, value)]
            && after[p].autoregister == accounts[p].autoregister && after[p].id == id
  {
    FindIs(accounts, id, p);
    TextAttributes(accounts[p], Some(value));
    k := Place(attribute);
    PlaceIs(accounts[p], attribute, value, k);
  }

  /** Where the saved element has this attribute. */
  function Place(attribute: string): (k: nat)
    requires IsText(attribute)
    ensures k < 10
  {
    if attribute == "name" then 1 else if attribute == "username" then 2 else if attribute == "domain" then 3
    else if attribute == "authusername" then 4 else if attribute == "password" then 5
    else if attribute == "displayname" then 6 else if attribute == "outboundproxy" then 7 else 8
  }

  lemma PlaceIs(a: Account, attribute: string, value: string, k: nat)
    requires IsText(attribute) && k == Place(attribute)
    ensures AccountAttrs(a)[k].0 == attribute
    ensures Assign(a, attribute, Some(value)).Some?
    ensures AccountAttrs(Assign(a, attribute, Some(value)).value) == AccountAttrs(a)[k := (attribute, value)]
    ensures Assign(a, attribute, Some(value)).value.id == a.id
    ensures Assign(a, attribute, Some(value)).value.autoregister == a.autoregister
  {
    TextAttributes(a, Some(value));
  }

  /** The flag for registering at the start takes a number; so does the ID. Nothing else of the account changes. */
  lemma SetChangesNumber(accounts: seq<Account>, id: int, value: string, p: nat)
    requires IsFirst(accounts, p, id)
    ensures Set(accounts, id, "autoregister", Some(value))
            == (accounts[p := accounts[p].(autoregister := Atoi(value))], true)
    ensures Set(accounts, id, "id", Some(value)) == (accounts[p := accounts[p].(id := Atoi(value))], true)
  {
    FindIs(accounts, id, p);
    NumberAttributes(accounts[p], value);
  }

  /** An attribute of any other name is refused, and so is an account that is not listed. */
  lemma SetRefusesIff(accounts: seq<Account>, id: int, attribute: string, value: string)
    ensures var (after, ok) := Set(accounts, id, attribute, Some(value));
            && (ok <==> (exists i :: 0 <= i < |accounts| && accounts[i].id == id) &&
                        (IsText(attribute) || attribute == "id" || attribute == "autoregister"))
            && (!ok ==> after == accounts)
  {
  }

  /** Deleting takes out the first account with the ID and leaves the others in their order. */
  lemma DeleteTakesOutFirst(accounts: seq<Account>, id: int)
    ensures forall p: nat :: IsFirst(accounts, p, id) ==>
              var after := Remove(accounts, id);
              && |after| == |accounts| - 1
              && (forall i :: 0 <= i < p ==> after[i] == accounts[i])
              && (forall i :: p <= i < |after| ==> after[i] == accounts[i + 1])
    ensures (forall i :: 0 <= i < |accounts| ==> accounts[i].id != id) ==> Remove(accounts, id) == accounts
  {
    forall p: nat | IsFirst(accounts, p, id) ensures Find(accounts, id) == p {
      FindIs(accounts, id, p);
    }
  }

  /** A new account comes last and has nothing but its ID. */
  lemma CreateAppendsBlank(s: Store)
    requires s.counter <= 0x7FFF_FFFF
    ensures var after := Create(s);
            && after.accounts[..|s.accounts|] == s.accounts && |after.accounts| == |s.accounts| + 1
            && after.accounts[|s.accounts|] ==
                 Account(after.counter, 0, None, None, None, None, None, None, None, None)
            && after.counter == if s.counter < 0x7FFF_FFFF then s.counter + 1 else s.counter - 0xFFFF_FFFF
  {
  }

  /** The caller's address comes from the account, the callee's from what was dialled. */
  lemma FromAndToAre(user: string, domain: string, callee: string)
    requires callee != ""
    ensures FromAndTo(Some((user, domain)), Some(callee)).Some?
    ensures var (from, to) := FromAndTo(Some((user, domain)), Some(callee)).value;
            && from == "sip:" + user + "@" + domain
            && to == (if exists i :: 0 <= i < |callee| && callee[i] == '@' then "sip:" + callee
                      else "sip:" + callee + "@" + domain)
    ensures FromAndTo(None, Some(callee)) == FromAndTo(Some((user, domain)), None) == None
    ensures FromAndTo(Some((user, domain)), Some("")) == None
  {
    assert "sip:" + (user + "@" + domain) == "sip:" + user + "@" + domain;
    assert "sip:" + (callee + "@" + domain) == "sip:" + callee + "@" + domain;
  }

  // ---------------------------------------------------------------- texts of values

  /** The texts of the six log levels, both ways. */
  lemma LoglevelTexts()
    ensures LoglevelToStr(0) == "LOG_DEBUG" && ParseLoglevel("LOG_DEBUG") == 0
    ensures LoglevelToStr(1) == "LOG_INFO" && ParseLoglevel("LOG_INFO") == 1
    ensures LoglevelToStr(2) == "LOG_MESSAGE" && ParseLoglevel("LOG_MESSAGE") == 2
    ensures LoglevelToStr(3) == "LOG_WARNING" && ParseLoglevel("LOG_WARNING") == 3
    ensures LoglevelToStr(4) == "LOG_ERROR" && ParseLoglevel("LOG_ERROR") == 4
    ensures LoglevelToStr(5) == "LOG_FAILURE" && ParseLoglevel("LOG_FAILURE") == 5
  {
    assert "LOG_DEBUG"[4] == 'D' && "LOG_INFO"[4] == 'I' && "LOG_MESSAGE"[4] == 'M';
    assert "LOG_WARNING"[4] == 'W' && "LOG_ERROR"[4] == 'E' && "LOG_FAILURE"[4] == 'F';
  }

  /** Any other text is no log level, and a flag is "true", "false" or unknown. */
  lemma OtherTexts(s: string)
    ensures (s != "LOG_DEBUG" && s != "LOG_INFO" && s != "LOG_MESSAGE" && s != "LOG_WARNING" && s != "LOG_ERROR" &&
             s != "LOG_FAILURE") ==> ParseLoglevel(s) == -1
    ensures ParseBool(s) == if s == "true" then 1 else if s == "false" then 0 else -1
  {
  }

  /** A row of decimal digits is read as the number it stands for in base ten, after white space and a sign. */
  lemma {:induction false} DigitsAreDecimal(s: string, c: char)
    requires '0' <= c <= '9'
    ensures Number(s + [c]) == 10 * Number(s) + (c as int - '0' as int)
    ensures Number("") == 0
  {
    assert (s + [c])[..|s|] == s;
  }
}
