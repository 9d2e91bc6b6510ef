/**
 * The documented cases of selectQueryBuilder, each derived from the general
 * properties. Expected statements are written in the pieces the builder
 * assembles them from (keyword, column list, target, conditions).
 */
module SelectExamples {
  import opened Wrappers
  import opened Text
  import opened Json
  import opened Filters
  import opened Outcomes
  import opened QueryParams
  import opened Select

  // ---------------------------------------------------------------- column lists

  lemma AllData()
    ensures SelectQuery("users", None, None) == Ok("SELECT * FROM " + "users" + ";")
  {
    SelectAll("users", None);
  }

  lemma TwoColumnsText()
    ensures "select=" + ("developer" + "," + "linemanager") == "select=developer,linemanager"
    ensures "developer" + ", " + "linemanager" == "developer, linemanager"
  {
  }

  lemma TwoColumns()
    ensures SelectQuery("roles", Some("select=developer,linemanager"), None)
         == Ok("SELECT " + "developer, linemanager" + " FROM " + "roles" + ";")
  {
    JoinTwo("developer", "linemanager", ",");
    JoinTwo("developer", "linemanager", ", ");
    TwoColumnsText();
    SelectColumns("roles", ["developer", "linemanager"]);
  }

  lemma ThreeColumnsText()
    ensures "select=" + ("firstname" + "," + "lastname" + "," + "email") == "select=firstname,lastname,email"
    ensures "firstname" + ", " + "lastname" + ", " + "email" == "firstname, lastname, email"
  {
    assert "firstname" + "," + "lastname" == "firstname,lastname";
    assert "firstname" + ", " + "lastname" == "firstname, lastname";
  }

  lemma ThreeColumns()
    ensures SelectQuery("roles", Some("select=firstname,lastname,email"), None)
         == Ok("SELECT " + "firstname, lastname, email" + " FROM " + "roles" + ";")
  {
    JoinThree("firstname", "lastname", "email", ",");
    JoinThree("firstname", "lastname", "email", ", ");
    ThreeColumnsText();
    SelectColumns("roles", ["firstname", "lastname", "email"]);
  }

  lemma EmptySelectList()
    ensures SourceText(SelectQuery("roles", Some("select="), None)) == ""
  {
    EmptySelectInvalid("roles", None);
  }

  // ---------------------------------------------------------------- filters

  lemma OneFilter(name: string, seg: string, condition: string)
    requires PlainSegment(seg) && !IsSelect(seg) && InlineCondition(seg) == Some(condition)
    ensures SelectQuery(name, Some(seg), None) == Ok("SELECT * FROM " + name + " WHERE " + condition + ";")
  {
    JoinOne(seg, "&");
    JoinOne(condition, " AND ");
    SelectFilters(name, [seg], [seg], [condition]);
  }

  lemma TwoSegments(p1: string, s1: string, c1: string, p2: string, s2: string, c2: string)
    requires RawSegment(p1, s1) && !IsSelect(s1) && InlineCondition(s1) == Some(c1)
    requires RawSegment(p2, s2) && !IsSelect(s2) && InlineCondition(s2) == Some(c2)
    ensures forall i :: 0 <= i < 2 ==> RawSegment([p1, p2][i], [s1, s2][i]) && !IsSelect([s1, s2][i])
    ensures forall i :: 0 <= i < 2 ==> InlineCondition([s1, s2][i]) == Some([c1, c2][i])
  {
    forall i | 0 <= i < 2
      ensures RawSegment([p1, p2][i], [s1, s2][i]) && !IsSelect([s1, s2][i])
      ensures InlineCondition([s1, s2][i]) == Some([c1, c2][i])
    {
      if i == 0 {
        assert [p1, p2][i] == p1 && [s1, s2][i] == s1 && [c1, c2][i] == c1;
      } else {
        assert [p1, p2][i] == p2 && [s1, s2][i] == s2 && [c1, c2][i] == c2;
      }
    }
  }

  lemma TwoFilters(name: string, p1: string, s1: string, c1: string, p2: string, s2: string, c2: string)
    requires RawSegment(p1, s1) && !IsSelect(s1) && InlineCondition(s1) == Some(c1)
    requires RawSegment(p2, s2) && !IsSelect(s2) && InlineCondition(s2) == Some(c2)
    ensures SelectQuery(name, Some(p1 + "&" + p2), None) == Ok("SELECT * FROM " + name + " WHERE " + (c1 + " AND " + c2) + ";")
  {
    TwoSegments(p1, s1, c1, p2, s2, c2);
    SelectFilters(name, [p1, p2], [s1, s2], [c1, c2]);
    JoinTwo(p1, p2, "&");
    JoinTwo(c1, c2, " AND ");
  }

  lemma TilburyText()
    ensures "Tilbury" + (['%', '2', '0'] + "2") == "Tilbury%202"
    ensures "Tilbury" + ([32 as char] + "2") == "Tilbury 2"
  {
  }

  lemma TilburySegmentText()
    ensures "name" + "=" + "eq" + "." + "Tilbury%202" == "name=eq.Tilbury%202"
    ensures "name" + " " + "=" + " '" + "Tilbury 2" + "'" == "name = 'Tilbury 2'"
  {
  }

  lemma TilburySegment()
    ensures PlainSegment("name=eq.Tilbury%202") && !IsSelect("name=eq.Tilbury%202")
  {
    assert "name=eq.Tilbury%202"[..7] == "name=eq";
  }

  /** `%20` decodes to a space. */
  lemma TilburyDecode()
    ensures PercentDecode("Tilbury%202") == Some("Tilbury 2")
  {
    DecodePlain("2");
    DecodeEscape('2', '0', "2");
    var c := (HexValue('2') * 16 + HexValue('0')) as char;
    assert c == 32 as char;
    DecodePrefix("Tilbury", ['%', '2', '0'] + "2");
    TilburyText();
  }

  lemma TilburyCondition()
    ensures InlineCondition("name=eq.Tilbury%202") == Some("name = 'Tilbury 2'")
  {
    TilburyDecode();
    TilburySegmentText();
    assert !IsDigit("Tilbury 2"[0]);
    TextQuoted("name", Eq, "Tilbury%202", "Tilbury 2");
  }

  lemma TeamByName()
    ensures SelectQuery("team", Some("name=eq.Tilbury%202"), None)
         == Ok("SELECT * FROM " + "team" + " WHERE " + "name = 'Tilbury 2'" + ";")
  {
    TilburySegment();
    TilburyCondition();
    OneFilter("team", "name=eq.Tilbury%202", "name = 'Tilbury 2'");
  }

  lemma NullText()
    ensures "name" + "=eq.null" == "name=eq.null"
    ensures "name" + " IS NULL" == "name IS NULL"
    ensures PlainSegment("name=eq.null") && !IsSelect("name=eq.null")
  {
    assert "name=eq.null"[..7] == "name=eq";
  }

  lemma NameIsNull()
    ensures SelectQuery("users", Some("name=eq.null"), None)
         == Ok("SELECT * FROM " + "users" + " WHERE " + "name IS NULL" + ";")
  {
    NullText();
    EqNullIsNull("name");
    OneFilter("users", "name=eq.null", "name IS NULL");
  }

  lemma EmailText()
    ensures "email" + "=" + "eq" + "." + "john@mail.com" == "email=eq.john@mail.com"
    ensures "email" + " " + "=" + " '" + "john@mail.com" + "'" == "email = 'john@mail.com'"
    ensures PlainSegment("email=eq.john@mail.com") && !IsSelect("email=eq.john@mail.com")
    ensures '%' !in "john@mail.com" && !IsDigits("john@mail.com") && "john@mail.com" != "null"
  {
    assert "email=eq.john@mail.com"[..7] == "email=e";
    assert !IsDigit("john@mail.com"[0]);
  }

  lemma UsersByEmail()
    ensures SelectQuery("users", Some("email=eq.john@mail.com"), None)
         == Ok("SELECT * FROM " + "users" + " WHERE " + "email = 'john@mail.com'" + ";")
  {
    EmailText();
    DecodePlain("john@mail.com");
    TextQuoted("email", Eq, "john@mail.com", "john@mail.com");
    OneFilter("users", "email=eq.john@mail.com", "email = 'john@mail.com'");
  }

  lemma ManagerText()
    ensures "email" + "=" + "eq" + "." + "manager@mail.com" == "email=eq.manager@mail.com"
    ensures "email" + " " + "=" + " '" + "manager@mail.com" + "'" == "email = 'manager@mail.com'"
  {
  }

  lemma ManagerSegment()
    ensures PlainSegment("email=eq.manager@mail.com") && !IsSelect("email=eq.manager@mail.com")
    ensures '%' !in "manager@mail.com" && !IsDigits("manager@mail.com") && "manager@mail.com" != "null"
  {
    assert "email=eq.manager@mail.com"[..7] == "email=e";
    assert !IsDigit("manager@mail.com"[0]);
  }

  lemma ManagerCondition()
    ensures InlineCondition("email=eq.manager@mail.com") == Some("email = 'manager@mail.com'")
  {
    ManagerText();
    ManagerSegment();
    DecodePlain("manager@mail.com");
    TextQuoted("email", Eq, "manager@mail.com", "manager@mail.com");
  }

  /** A view is selected from like a table. */
  lemma ViewByEmail()
    ensures SelectQuery("view_rolemembers", Some("email=eq.manager@mail.com"), None)
         == Ok("SELECT * FROM " + "view_rolemembers" + " WHERE " + "email = 'manager@mail.com'" + ";")
  {
    ManagerSegment();
    ManagerCondition();
    OneFilter("view_rolemembers", "email=eq.manager@mail.com", "email = 'manager@mail.com'");
  }

  // `id=eq.3,&continent=eq.Asia`: the trailing comma goes, the digits stay bare.

  lemma IdText()
    ensures "id" + "=" + "eq" + "." + "3" == "id=eq.3"
    ensures "id" + " " + "=" + " " + "3" == "id = 3"
    ensures RawSegment("id=eq.3,", "id=eq.3") && !IsSelect("id=eq.3")
    ensures IsDigits("3")
  {
    assert "id=eq.3" + "," == "id=eq.3,";
    assert "id=eq.3"[..7] == "id=eq.3";
  }

  lemma AsiaText()
    ensures "continent" + "=" + "eq" + "." + "Asia" == "continent=eq.Asia"
    ensures "continent" + " " + "=" + " '" + "Asia" + "'" == "continent = 'Asia'"
    ensures RawSegment("continent=eq.Asia", "continent=eq.Asia") && !IsSelect("continent=eq.Asia")
    ensures '%' !in "Asia" && !IsDigits("Asia") && "Asia" != "null"
  {
    assert "continent=eq.Asia"[..7] == "contine";
    assert !IsDigit("Asia"[0]);
  }

  lemma IdCondition()
    ensures InlineCondition("id=eq.3") == Some("id = 3")
  {
    IdText();
    DigitsUnquoted("id", Eq, "3");
  }

  lemma AsiaCondition()
    ensures InlineCondition("continent=eq.Asia") == Some("continent = 'Asia'")
  {
    AsiaText();
    DecodePlain("Asia");
    TextQuoted("continent", Eq, "Asia", "Asia");
  }

  lemma IdAndContinentText()
    ensures "id=eq.3," + "&" + "continent=eq.Asia" == "id=eq.3,&continent=eq.Asia"
    ensures "id = 3" + " AND " + "continent = 'Asia'" == "id = 3 AND continent = 'Asia'"
  {
  }

  lemma IdAndContinent()
    ensures SelectQuery("countries", Some("id=eq.3,&continent=eq.Asia"), None)
         == Ok("SELECT * FROM " + "countries" + " WHERE " + "id = 3 AND continent = 'Asia'" + ";")
  {
    IdText();
    AsiaText();
    IdCondition();
    AsiaCondition();
    IdAndContinentText();
    TwoFilters("countries", "id=eq.3,", "id=eq.3", "id = 3", "continent=eq.Asia", "continent=eq.Asia", "continent = 'Asia'");
  }
}
