/** The extension-to-category lookup of `organize_files`. */
module Classifier {
  import opened Text
  import opened Paths

  /** One entry of the category table: a folder name and the extensions that go there. */
  datatype Rule = Rule(category: string, extensions: seq<string>)

  const Others: string := "Others"

  /** The table, in the dictionary's insertion order. */
  function Table(): seq<Rule>
  {
    [
      Rule("Images", [".jpg", ".jpeg", ".png", ".gif"]),
      Rule("Documents", [".pdf", ".docx", ".txt", ".pptx", ".csv"]),
      Rule("Videos", [".mp4", ".mkv"]),
      Rule("Audio", [".mp3", ".wav"]),
      Rule("Archives", [".zip", ".rar"])
    ]
  }

  /** Every category a file can be put under: the table's five and the fallback. */
  const Categories: seq<string> := ["Images", "Documents", "Videos", "Audio", "Archives", Others]

  /** The extension the organizer looks up: `os.path.splitext(name)[1].lower()`. */
  function LookupExtension(name: string): string
  {
    Lower(Extension(name))
  }

  /** The `for cat, exts in categories.items(): if ext in exts: ... break` search,
      starting from `category = "Others"`. */
  function FirstMatch(rules: seq<Rule>, ext: string): (r: string)
    ensures (forall i :: 0 <= i < |rules| ==> ext !in rules[i].extensions) ==> r == Others
    ensures forall i :: 0 <= i < |rules| && ext in rules[i].extensions
                      && (forall j :: 0 <= j < i ==> ext !in rules[j].extensions)
                      ==> r == rules[i].category
  {
    if rules == [] then Others
    else if ext in rules[0].extensions then rules[0].category
    else
      var r := FirstMatch(rules[1..], ext);
      assert forall i :: 1 <= i < |rules| ==> rules[1..][i - 1] == rules[i];
      r
  }

  /** The category a table gives a file name. */
  function CategoryOf(rules: seq<Rule>, name: string): string
  {
    FirstMatch(rules, LookupExtension(name))
  }

  /** The category of a file name under the organizer's table. */
  function Classify(name: string): string
  {
    CategoryOf(Table(), name)
  }

  /** No two rules share an extension, and no two rules share a category, nor use the fallback's. */
  ghost predicate WellFormed(rules: seq<Rule>)
  {
    && (forall i, j, e :: 0 <= i < j < |rules| && e in rules[i].extensions ==> e !in rules[j].extensions)
    && (forall i, j :: 0 <= i < j < |rules| ==> rules[i].category != rules[j].category)
    && (forall i :: 0 <= i < |rules| ==> rules[i].category != Others)
  }

  /** The table is well formed: the five extension lists are pairwise disjoint and the five
      folder names are distinct and differ from `Others`. */
  lemma TableWellFormed()
    ensures WellFormed(Table())
  {
    forall i, j | 0 <= i < j < |Table()|
      ensures forall e :: e in Table()[i].extensions ==> e !in Table()[j].extensions
    {
      ListsDisjoint(i, j);
    }
    CategoriesDistinct();
  }

  /** The six category names are pairwise distinct, and the table lists the first five in order. */
  lemma CategoriesDistinct()
    ensures forall i :: 0 <= i < |Table()| ==> Table()[i].category == Categories[i]
    ensures forall i, j :: 0 <= i < j < |Categories| ==> Categories[i] != Categories[j]
  {
    forall i, j | 0 <= i < j < |Categories|
      ensures Categories[i] != Categories[j]
    {
      assert |Categories[i]| != |Categories[j]| || Categories[i][0] != Categories[j][0];
    }
  }

  /** Two lists of the table, compared one pair at a time. */
  lemma ListsDisjoint(i: int, j: int)
    requires 0 <= i < j < |Table()|
    ensures forall e :: e in Table()[i].extensions ==> e !in Table()[j].extensions
  {
    var xs, ys := Table()[i].extensions, Table()[j].extensions;
    if i == 0 {
      assert forall e :: e in xs ==> e !in ys by {
        if j == 1 { } else if j == 2 { } else if j == 3 { } else { }
      }
    } else if i == 1 {
      assert forall e :: e in xs ==> e !in ys by {
        if j == 2 { } else if j == 3 { } else { }
      }
    } else if i == 2 {
      assert forall e :: e in xs ==> e !in ys by {
        if j == 3 { } else { }
      }
    }
  }

  /** In a well-formed table the first match is the only match: a rule's category is chosen
      exactly when its list holds the extension, and the fallback exactly when no list does. */
  lemma {:induction false} FirstMatchIsUnique(rules: seq<Rule>, ext: string, i: int)
    requires WellFormed(rules) && 0 <= i < |rules|
    ensures FirstMatch(rules, ext) == rules[i].category <==> ext in rules[i].extensions
    ensures FirstMatch(rules, ext) == Others <==> forall j :: 0 <= j < |rules| ==> ext !in rules[j].extensions
  {
    if k :| 0 <= k < |rules| && ext in rules[k].extensions {
      assert forall j :: 0 <= j < k ==> ext !in rules[j].extensions;
      assert FirstMatch(rules, ext) == rules[k].category;
      if k != i {
        assert rules[k].category != rules[i].category;
        assert ext !in rules[i].extensions;
      }
    }
  }

  /** For a well-formed table the order of the rules is immaterial: any reordering of the
      same rules classifies every extension the same way. */
  lemma FirstMatchOrderFree(rules: seq<Rule>, other: seq<Rule>, ext: string)
    requires WellFormed(rules) && WellFormed(other)
    requires forall r :: r in rules <==> r in other
    ensures FirstMatch(rules, ext) == FirstMatch(other, ext)
  {
    if i :| 0 <= i < |rules| && ext in rules[i].extensions {
      assert rules[i] in other;
      var j :| 0 <= j < |other| && other[j] == rules[i];
      FirstMatchIsUnique(rules, ext, i);
      FirstMatchIsUnique(other, ext, j);
    } else {
      forall j | 0 <= j < |other|
        ensures ext !in other[j].extensions
      {
        assert other[j] in rules;
      }
    }
  }

  /** Classification is total and lands on one of the six category names: the name of the
      rule whose list holds the lowercased extension, or `Others` when no list does. */
  lemma ClassifySpec(name: string)
    ensures Classify(name) in Categories
    ensures forall i :: 0 <= i < |Table()| ==>
              (Classify(name) == Table()[i].category <==> LookupExtension(name) in Table()[i].extensions)
    ensures Classify(name) == Others <==>
              forall i :: 0 <= i < |Table()| ==> LookupExtension(name) !in Table()[i].extensions
  {
    TableWellFormed();
    var ext := LookupExtension(name);
    forall i | 0 <= i < |Table()|
      ensures Classify(name) == Table()[i].category <==> ext in Table()[i].extensions
    {
      FirstMatchIsUnique(Table(), ext, i);
    }
    FirstMatchIsUnique(Table(), ext, 0);
    if Classify(name) != Others {
      var k :| 0 <= k < |Table()| && ext in Table()[k].extensions;
      assert Classify(name) == Table()[k].category;
      CategoriesDistinct();
      assert Table()[k].category == Categories[k];
    }
  }

  /** Every category is a plain relative folder name: non-empty, not starting with `/`. */
  lemma ClassifyRelative(name: string)
    ensures Classify(name) != [] && Classify(name)[0] != '/'
  {
    ClassifySpec(name);
    var c := Classify(name);
    assert c == "Images" || c == "Documents" || c == "Videos" || c == "Audio" || c == "Archives" || c == Others;
  }

  /** An upper-case image extension is still an image. */
  lemma ClassifyPhotoExample()
    ensures Classify("photo.JPG") == "Images"
  {
    ClassifySample("photo.JPG", "photo", ".JPG", ".jpg");
  }

  /** Names whose extensions differ only in the case of their letters land in the same
      category. */
  lemma ClassifyIgnoresCase(a: string, b: string)
    requires |Extension(a)| == |Extension(b)|
    requires forall i :: 0 <= i < |Extension(a)| ==> CaseVariant(Extension(a)[i], Extension(b)[i])
    ensures Classify(a) == Classify(b)
  {
    LowerIgnoresCase(Extension(a), Extension(b));
  }

  /** An extension in no list falls back to `Others`. */
  lemma ClassifyUnknownExample()
    ensures Classify("unknown.xyz") == Others
  {
    ClassifySample("unknown.xyz", "unknown", ".xyz", ".xyz");
    InNoList(".xyz");
    TableWellFormed();
    FirstMatchIsUnique(Table(), ".xyz", 0);
  }

  /** No listed extension has an `x` after its dot. */
  lemma InNoList(ext: string)
    requires |ext| >= 2 && ext[1] == 'x'
    ensures forall i :: 0 <= i < |Table()| ==> ext !in Table()[i].extensions
  {
    forall i | 0 <= i < |Table()|
      ensures ext !in Table()[i].extensions
    {
      assert forall e :: e in Table()[i].extensions ==> e[1] != 'x';
    }
  }

  /** A name without an extension (no dot, or only leading dots) goes to `Others`. */
  lemma ClassifyNoExtension(name: string)
    requires Extension(name) == []
    ensures Classify(name) == Others
  {
    assert LookupExtension(name) == [];
    forall i | 0 <= i < |Table()|
      ensures [] !in Table()[i].extensions
    {
      assert forall e :: e in Table()[i].extensions ==> |e| > 0;
    }
  }

  /** How a sample name whose stem starts with a non-dot is looked up: by its lowered suffix. */
  lemma ClassifySample(name: string, stem: string, ext: string, lowered: string)
    requires name == stem + ext
    requires |stem| > 0 && stem[0] != '.' && '/' !in stem && '/' !in ext
    requires |ext| > 0 && ext[0] == '.' && '.' !in ext[1..]
    requires Lower(ext) == lowered
    ensures LookupExtension(name) == lowered
    ensures Classify(name) == FirstMatch(Table(), lowered)
  {
    assert stem[0] != '.';
    ExtensionOfSuffix(stem, ext);
  }
}
