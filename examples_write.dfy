/**
 * The documented cases of deleteQueryBuilder and updateQueryBuilder, each
 * derived from the general properties. Expected statements are written in
 * the pieces the builders assemble them from.
 */
module WriteExamples {
  import opened Wrappers
  import opened Text
  import opened Json
  import opened Filters
  import opened Outcomes
  import opened QueryParams
  import opened SqlValues
  import opened Update
  import opened Delete
  import opened SelectExamples

  /** The row id used by the update cases. */
  const Id := "2553b00e-3cb0-441d-b29d-17196491a1e5"

  // ---------------------------------------------------------------- helpers

  lemma TwoParts(p1: string, s1: string, c1: string, p2: string, s2: string, c2: string)
    requires RawSegment(p1, s1) && InlineCondition(s1) == Some(c1)
    requires RawSegment(p2, s2) && InlineCondition(s2) == Some(c2)
    ensures forall i :: 0 <= i < 2 ==> RawSegment([p1, p2][i], [s1, s2][i])
    ensures forall i :: 0 <= i < 2 ==> InlineCondition([s1, s2][i]) == Some([c1, c2][i])
  {
    forall i | 0 <= i < 2
      ensures RawSegment([p1, p2][i], [s1, s2][i])
      ensures InlineCondition([s1, s2][i]) == Some([c1, c2][i])
    {
      if i == 0 {
        assert [p1, p2][i] == p1 && [s1, s2][i] == s1 && [c1, c2][i] == c1;
      } else {
        assert [p1, p2][i] == p2 && [s1, s2][i] == s2 && [c1, c2][i] == c2;
      }
    }
  }

  lemma DeleteOne(name: string, seg: string, condition: string)
    requires PlainSegment(seg) && InlineCondition(seg) == Some(condition)
    ensures DeleteQuery(name, Some(seg)) == Ok("DELETE FROM " + name + " WHERE " + condition + ";")
  {
    JoinOne(seg, "&");
    JoinOne(condition, " AND ");
    DeleteFilters(name, [seg], [seg], [condition]);
  }

  lemma DeleteTwo(name: string, p1: string, s1: string, c1: string, p2: string, s2: string, c2: string)
    requires RawSegment(p1, s1) && InlineCondition(s1) == Some(c1)
    requires RawSegment(p2, s2) && InlineCondition(s2) == Some(c2)
    ensures DeleteQuery(name, Some(p1 + "&" + p2)) == Ok("DELETE FROM " + name + " WHERE " + (c1 + " AND " + c2) + ";")
  {
    TwoParts(p1, s1, c1, p2, s2, c2);
    DeleteFilters(name, [p1, p2], [s1, s2], [c1, c2]);
    JoinTwo(p1, p2, "&");
    JoinTwo(c1, c2, " AND ");
  }

  // ---------------------------------------------------------------- delete

  lemma DeleteByEmail()
    ensures DeleteQuery("roles", Some("email=eq.manager@mail.com"))
         == Ok("DELETE FROM " + "roles" + " WHERE " + "email = 'manager@mail.com'" + ";")
  {
    ManagerSegment();
    ManagerCondition();
    DeleteOne("roles", "email=eq.manager@mail.com", "email = 'manager@mail.com'");
  }

  lemma IdDigitsText()
    ensures "id" + "=" + "eq" + "." + "123" == "id=eq.123"
    ensures "id" + " " + "=" + " " + "123" == "id = 123"
    ensures RawSegment("id=eq.123", "id=eq.123") && IsDigits("123")
    ensures RawSegment("email=eq.manager@mail.com,", "email=eq.manager@mail.com")
    ensures "email=eq.manager@mail.com," + "&" + "id=eq.123" == "email=eq.manager@mail.com,&id=eq.123"
    ensures "email = 'manager@mail.com'" + " AND " + "id = 123" == "email = 'manager@mail.com' AND id = 123"
  {
    ManagerSegment();
    assert "email=eq.manager@mail.com" + "," == "email=eq.manager@mail.com,";
  }

  lemma IdDigitsCondition()
    ensures InlineCondition("id=eq.123") == Some("id = 123")
  {
    IdDigitsText();
    DigitsUnquoted("id", Eq, "123");
  }

  lemma DeleteByEmailAndId()
    ensures DeleteQuery("roles", Some("email=eq.manager@mail.com,&id=eq.123"))
         == Ok("DELETE FROM " + "roles" + " WHERE " + "email = 'manager@mail.com' AND id = 123" + ";")
  {
    IdDigitsText();
    ManagerCondition();
    IdDigitsCondition();
    DeleteTwo("roles", "email=eq.manager@mail.com,", "email=eq.manager@mail.com", "email = 'manager@mail.com'",
              "id=eq.123", "id=eq.123", "id = 123");
  }

  // ---------------------------------------------------------------- update

  /** `['linemanager', 'systemuser']` in the update bodies. */
  const Roles := JArray([JStr("linemanager"), JStr("systemuser")])

  lemma SetOne(f: Field)
    ensures SetList([f]) == SetItem(f)
  {
    assert SetItems([f]) == [SetItem(f)];
    JoinOne(SetItem(f), ",");
  }

  lemma SetTwo(f1: Field, f2: Field)
    ensures SetList([f1, f2]) == SetItem(f1) + "," + SetItem(f2)
  {
    assert SetItems([f1, f2]) == [SetItem(f1), SetItem(f2)];
    JoinTwo(SetItem(f1), SetItem(f2), ",");
  }

  lemma SetThree(f1: Field, f2: Field, f3: Field)
    ensures SetList([f1, f2, f3]) == SetItem(f1) + "," + SetItem(f2) + "," + SetItem(f3)
  {
    assert SetItems([f1, f2, f3]) == [SetItem(f1), SetItem(f2), SetItem(f3)];
    JoinThree(SetItem(f1), SetItem(f2), SetItem(f3), ",");
  }

  /** Updating by id without `prefer`: no RETURNING, whatever the query string. */
  lemma ByIdPlain(name: string, body: Row, setList: string, id: string, queryParams: Option<string>)
    requires |body| > 0 && id != "" && SetList(body) == setList
    ensures UpdateQuery(name, body, Some(id), queryParams, None) == Ok("UPDATE " + name + " SET " + setList + " WHERE id = '" + id + "'" + ";")
  {
    IdWins(name, body, Some(id), queryParams, queryParams, None);
    var head := "UPDATE " + name + " SET " + setList + " WHERE id = '" + id + "'";
    assert head + "" == head;
  }

  /** Updating by id with `prefer: return=representation`: RETURNING * before the `;`. */
  lemma ByIdReturning(name: string, body: Row, setList: string, id: string, queryParams: Option<string>)
    requires |body| > 0 && id != "" && SetList(body) == setList
    ensures UpdateQuery(name, body, Some(id), queryParams, Some(Representation))
         == Ok("UPDATE " + name + " SET " + setList + " WHERE id = '" + id + "'" + " RETURNING *" + ";")
  {
    IdWins(name, body, Some(id), queryParams, queryParams, Some(Representation));
  }

  /** Updating by two filter segments without `prefer`. */
  lemma UpdateTwo(name: string, body: Row, setList: string, p1: string, s1: string, c1: string, p2: string, s2: string, c2: string)
    requires |body| > 0 && SetList(body) == setList
    requires RawSegment(p1, s1) && InlineCondition(s1) == Some(c1)
    requires RawSegment(p2, s2) && InlineCondition(s2) == Some(c2)
    ensures UpdateQuery(name, body, None, Some(p1 + "&" + p2), None)
         == Ok("UPDATE " + name + " SET " + setList + " WHERE " + (c1 + " AND " + c2) + ";")
  {
    TwoParts(p1, s1, c1, p2, s2, c2);
    UpdateFilters(name, body, [p1, p2], [s1, s2], [c1, c2], None);
    JoinTwo(p1, p2, "&");
    JoinTwo(c1, c2, " AND ");
    var head := "UPDATE " + name + " SET " + setList + " WHERE " + (c1 + " AND " + c2);
    assert head + "" == head;
  }

  /** A two-element array of plain strings, as JSON.stringify writes it. */
  lemma StringifyPair(a: string, b: string)
    requires forall i :: 0 <= i < |a| ==> PlainChar(a[i])
    requires forall i :: 0 <= i < |b| ==> PlainChar(b[i])
    ensures Stringify(JArray([JStr(a), JStr(b)])) == "[" + ("\"" + a + "\"" + "," + ("\"" + b + "\"")) + "]"
  {
    EscapePlain(a);
    EscapePlain(b);
    var items := [JStr(a), JStr(b)];
    assert seq(|items|, k requires 0 <= k < |items| => Stringify(items[k])) == [Quote(a), Quote(b)];
    JoinTwo(Quote(a), Quote(b), ",");
  }

  lemma RoleWords()
    ensures forall i :: 0 <= i < |"linemanager"| ==> PlainChar("linemanager"[i])
    ensures forall i :: 0 <= i < |"systemuser"| ==> PlainChar("systemuser"[i])
  {
  }

  /** The roles array in JSON: each role in double quotes, comma-separated, in brackets. */
  lemma RolesText()
    ensures Stringify(Roles) == "[" + ("\"" + "linemanager" + "\"" + "," + ("\"" + "systemuser" + "\"")) + "]"
  {
    RoleWords();
    StringifyPair("linemanager", "systemuser");
  }

  lemma EmailItem()
    ensures SetItem(Field("email", JStr("john@mail.com"))) == "email='john@mail.com'"
  {
    SetItemValues("email", JStr("john@mail.com"));
  }

  lemma RolesItem()
    ensures SetItem(Field("roles", Roles)) == "roles" + "=" + Stringify(Roles)
  {
    SetItemValues("roles", Roles);
  }

  /** The SET list writes the array as its JSON text, unquoted (see RolesText for that text). */
  lemma ById()
    ensures UpdateQuery("identity", [Field("email", JStr("john@mail.com")), Field("roles", Roles)], Some(Id), None, None)
         == Ok("UPDATE " + "identity" + " SET " + ("email='john@mail.com'" + "," + ("roles" + "=" + Stringify(Roles)))
               + " WHERE id = '" + Id + "'" + ";")
  {
    EmailItem();
    RolesItem();
    SetTwo(Field("email", JStr("john@mail.com")), Field("roles", Roles));
    ByIdPlain("identity", [Field("email", JStr("john@mail.com")), Field("roles", Roles)],
              "email='john@mail.com'" + "," + ("roles" + "=" + Stringify(Roles)), Id, None);
  }

  lemma AgeText()
    ensures SetItem(Field("age", JInt(34))) == "age='34'"
  {
    SetItemValues("age", JInt(34));
    assert NatToString(34) == "34";
  }

  lemma ByIdReturningAll()
    ensures UpdateQuery("identity", [Field("age", JInt(34)), Field("email", JStr("john@mail.com")), Field("roles", Roles)],
                        Some(Id), None, Some("return=representation"))
         == Ok("UPDATE " + "identity" + " SET " + ("age='34'" + "," + "email='john@mail.com'" + "," + ("roles" + "=" + Stringify(Roles)))
               + " WHERE id = '" + Id + "'" + " RETURNING *" + ";")
  {
    AgeText();
    EmailItem();
    RolesItem();
    SetThree(Field("age", JInt(34)), Field("email", JStr("john@mail.com")), Field("roles", Roles));
    ByIdReturning("identity", [Field("age", JInt(34)), Field("email", JStr("john@mail.com")), Field("roles", Roles)],
                  "age='34'" + "," + "email='john@mail.com'" + "," + ("roles" + "=" + Stringify(Roles)), Id, None);
  }

  lemma IdLetter()
    ensures '%' !in Id && !IsDigits(Id) && Id != "null"
  {
    assert !IsDigit(Id[4]);
  }

  lemma PedroFilterText()
    ensures "firstname" + "=" + "eq" + "." + "Pedro" == "firstname=eq.Pedro"
    ensures "firstname" + " " + "=" + " '" + "Pedro" + "'" == "firstname = 'Pedro'"
    ensures RawSegment("firstname=eq.Pedro,", "firstname=eq.Pedro")
    ensures '%' !in "Pedro" && !IsDigits("Pedro") && "Pedro" != "null"
  {
    assert "firstname=eq.Pedro" + "," == "firstname=eq.Pedro,";
    assert !IsDigit("Pedro"[0]);
  }

  lemma PedroCondition()
    ensures InlineCondition("firstname=eq.Pedro") == Some("firstname = 'Pedro'")
  {
    PedroFilterText();
    DecodePlain("Pedro");
    TextQuoted("firstname", Eq, "Pedro", "Pedro");
  }

  lemma IdSegment()
    ensures RawSegment("id=eq." + Id, "id=eq." + Id)
    ensures "id" + "=" + "eq" + "." + Id == "id=eq." + Id
    ensures "id" + " " + "=" + " '" + Id + "'" == "id = '" + Id + "'"
  {
    IdLetter();
    assert ("id=eq." + Id)[|"id=eq." + Id| - 1] == Id[|Id| - 1];
  }

  lemma IdFilterCondition()
    ensures InlineCondition("id=eq." + Id) == Some("id = '" + Id + "'")
  {
    IdSegment();
    IdLetter();
    DecodePlain(Id);
    TextQuoted("id", Eq, Id, Id);
  }

  lemma ByFilters()
    ensures UpdateQuery("identity", [Field("firstname", JStr("John"))], None, Some("firstname=eq.Pedro," + "&" + ("id=eq." + Id)), None)
         == Ok("UPDATE " + "identity" + " SET " + "firstname='John'" + " WHERE " + ("firstname = 'Pedro'" + " AND " + ("id = '" + Id + "'")) + ";")
  {
    assert SetList([Field("firstname", JStr("John"))]) == "firstname='John'" by {
      SetOne(Field("firstname", JStr("John")));
      SetItemValues("firstname", JStr("John"));
    }
    PedroFilterText();
    PedroCondition();
    IdSegment();
    IdFilterCondition();
    UpdateTwo("identity", [Field("firstname", JStr("John"))], "firstname='John'",
              "firstname=eq.Pedro,", "firstname=eq.Pedro", "firstname = 'Pedro'", "id=eq." + Id, "id=eq." + Id, "id = '" + Id + "'");
  }

  lemma IdOverFilters()
    ensures UpdateQuery("identity", [Field("firstname", JStr("John")), Field("lastname", JNull)], Some(Id),
                        Some("firstname=eq.Pedro,&lastname=eq.Miguel,&id=eq." + Id), None)
         == Ok("UPDATE " + "identity" + " SET " + ("firstname='John'" + "," + "lastname=NULL") + " WHERE id = '" + Id + "'" + ";")
  {
    assert SetList([Field("firstname", JStr("John")), Field("lastname", JNull)]) == "firstname='John'" + "," + "lastname=NULL" by {
      SetTwo(Field("firstname", JStr("John")), Field("lastname", JNull));
      SetItemValues("firstname", JStr("John"));
      SetItemValues("lastname", JNull);
    }
    ByIdPlain("identity", [Field("firstname", JStr("John")), Field("lastname", JNull)], "firstname='John'" + "," + "lastname=NULL",
              Id, Some("firstname=eq.Pedro,&lastname=eq.Miguel,&id=eq." + Id));
  }
}
