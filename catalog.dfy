/** The constant course catalog and its two lookups (`getCourseById`, `getCoursesByCategory`). */
module Catalog {
  import opened Wrappers
  import opened Seqs
  import opened CourseCard

  const Courses: seq<Course> := [
    Course("dca", "DCA - Diploma in Computer Applications",
      "Comprehensive diploma covering MS Office, Internet basics, typing, and essential computer skills for beginners.",
      "6 Months", Both, "Diploma", None),
    Course("tally-prime", "Tally Prime with GST",
      "Master accounting software with GST compliance, inventory management, and financial reporting.",
      "3 Months", Both, "Accounting", None),
    Course("python", "Python Programming",
      "Learn Python from basics to advanced concepts including data structures, OOP, and real-world projects.",
      "4 Months", Both, "Programming", None),
    Course("web-development", "Full Stack Web Development",
      "Complete web development course covering HTML, CSS, JavaScript, React, Node.js, and databases.",
      "6 Months", Both, "Programming", None),
    Course("autocad", "AutoCAD 2D & 3D",
      "Industry-standard CAD software training for architectural, mechanical, and civil engineering drawings.",
      "3 Months", Offline, "Design", None),
    Course("java", "Core Java & Advanced Java",
      "Complete Java programming from core concepts to advanced frameworks like Spring and Hibernate.",
      "5 Months", Both, "Programming", None),
    Course("bcc", "BCC - Basic Computer Course",
      "Foundation course covering computer fundamentals, MS Office, and internet for absolute beginners.",
      "2 Months", Both, "Basic", None),
    Course("ui-ux-design", "UI/UX Design",
      "Learn user interface and experience design principles using Figma, Adobe XD, and industry best practices.",
      "4 Months", Both, "Design", None),
    Course("cyber-security", "Cyber Security & Ethical Hacking",
      "Comprehensive security training covering network security, penetration testing, and ethical hacking.",
      "6 Months", Both, "Security", None),
    Course("solidworks", "SolidWorks 3D CAD",
      "Professional 3D CAD software for mechanical design, simulation, and product development.",
      "4 Months", Offline, "Design", None),
    Course("dtp", "DTP - Desktop Publishing",
      "Master Photoshop, Illustrator, InDesign, and CorelDraw for professional graphic design work.",
      "3 Months", Both, "Design", None),
    Course("php-mysql", "PHP & MySQL",
      "Server-side web development with PHP and MySQL database management for dynamic websites.",
      "4 Months", Both, "Programming", None)
  ]

  /** The filter labels, in display order; "All" is the wildcard. */
  const Categories: seq<string> := ["All", "Diploma", "Programming", "Accounting", "Design", "Security", "Basic"]

  const AllCategories: string := "All"

  /** `cs.find(c => c.id === id)`: the first course with that id, if any. */
  function FindById(cs: seq<Course>, id: string): (r: Option<Course>)
    ensures r.None? <==> forall i :: 0 <= i < |cs| ==> cs[i].id != id
    ensures r.Some? ==> exists i :: 0 <= i < |cs| && cs[i] == r.value && r.value.id == id &&
                                   forall j :: 0 <= j < i ==> cs[j].id != id
  {
    if cs == [] then None
    else if cs[0].id == id then Some(cs[0])
    else
      var r := FindById(cs[1..], id);
      assert r.Some? ==> exists i :: 1 <= i < |cs| && cs[i] == r.value && r.value.id == id &&
                                     forall j :: 0 <= j < i ==> cs[j].id != id by {
        if r.Some? {
          var i :| 0 <= i < |cs[1..]| && cs[1..][i] == r.value && r.value.id == id &&
                   forall j :: 0 <= j < i ==> cs[1..][j].id != id;
          assert cs[i + 1] == r.value;
        }
      }
      r
  }

  /** `getCourseById`: the catalog course with that id, or none when no course has it. */
  function CourseById(id: string): (r: Option<Course>)
    ensures r.Some? ==> r.value in Courses && r.value.id == id
    ensures r.None? <==> forall c :: c in Courses ==> c.id != id
  {
    FindById(Courses, id)
  }

  predicate InCategory(category: string, c: Course) {
    c.category == category
  }

  /** `getCoursesByCategory`: the whole catalog for "All", else the courses of that category. */
  function CoursesByCategory(category: string): (r: seq<Course>)
    ensures category == AllCategories ==> r == Courses
    ensures category != AllCategories ==> IsSubseq(r, Courses)
    ensures category != AllCategories ==>
      (forall c :: c in r <==> c in Courses && c.category == category)
  {
    if category == AllCategories then Courses
    else
      var p := (c: Course) => InCategory(category, c);
      FilterIsSubseq(Courses, p);
      Filter(Courses, p)
  }

  /** A category no course carries yields the empty list, not an error. */
  lemma UnusedCategoryIsEmpty(category: string)
    requires category != AllCategories
    requires forall c :: c in Courses ==> c.category != category
    ensures CoursesByCategory(category) == []
  {
    FilterNone(Courses, (c: Course) => InCategory(category, c));
  }

  /** Whatever the selected category, the result is an ordered selection from the catalog. */
  lemma CoursesByCategoryIsSubseq(category: string)
    ensures IsSubseq(CoursesByCategory(category), Courses)
  {
    if category == AllCategories {
      FilterKeepsAll(Courses, (c: Course) => true);
      FilterIsSubseq(Courses, (c: Course) => true);
    }
  }

  /** No two catalog courses share an id. */
  lemma CatalogIdsDistinct()
    ensures forall i, j :: 0 <= i < j < |Courses| ==> Courses[i].id != Courses[j].id
  {
  }

  /** Every catalog course carries a listed, non-wildcard category that has an image pool. */
  lemma CatalogCategoriesListed()
    ensures forall c :: c in Courses ==>
      c.category in Categories && c.category != AllCategories && c.category in CategoryImages
  {
  }

  /** In a list with distinct ids, looking up an element's id finds that element. */
  lemma FindByIdDistinct(cs: seq<Course>, k: nat)
    requires forall i, j :: 0 <= i < j < |cs| ==> cs[i].id != cs[j].id
    requires k < |cs|
    ensures FindById(cs, cs[k].id) == Some(cs[k])
  {
    var r := FindById(cs, cs[k].id);
    var i :| 0 <= i < |cs| && cs[i] == r.value && r.value.id == cs[k].id &&
             forall j :: 0 <= j < i ==> cs[j].id != cs[k].id;
    assert !(i < k) && !(k < i);
  }

  /** Each catalog course is found by its own id: the lookup is exact. */
  lemma CourseByIdFindsEach(k: nat)
    requires k < |Courses|
    ensures CourseById(Courses[k].id) == Some(Courses[k])
  {
    CatalogIdsDistinct();
    FindByIdDistinct(Courses, k);
  }

  /** The "dca" card always shows the first Diploma image ('d' + 'c' + 'a' = 296, even). */
  lemma DcaImage()
    ensures ImageSource(Courses[0]) == "/courses/basic-1.jpg"
  {
    assert Courses[0].id == "dca";
    assert CodeSum("dca") == 296 by {
      assert "dca"[..2] == "dc";
      assert "dc"[..1] == "d";
      assert "d"[..0] == "";
    }
  }
}
