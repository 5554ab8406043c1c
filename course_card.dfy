/**
 * The `Course` record and the deterministic choice of a card image for it
 * (`getImageSource` of the course card component).
 */
module CourseCard {
  import opened Wrappers

  datatype CourseMode = Online | Offline | Both

  /** A catalog entry; `image` is the optional explicit image reference. */
  datatype Course = Course(
    id: string,
    title: string,
    description: string,
    duration: string,
    mode: CourseMode,
    category: string,
    image: Option<string>)

  /** The category-to-image-pool table; keys must match catalog categories exactly. */
  const CategoryImages: map<string, seq<string>> := map[
    "Design" := ["design-1.jpg", "design-2.jpg", "design-3.jpg"],
    "Programming" := ["programming-1.jpg", "programming-2.jpg", "programming-3.jpg"],
    "Security" := ["security-1.jpg", "security-2.jpg"],
    "Basic" := ["basic-1.jpg", "basic-2.jpg"],
    "Accounting" := ["accounting-1.jpg"],
    "Diploma" := ["basic-1.jpg", "basic-2.jpg"]
  ]

  /** The pool used for a category the table does not know. */
  const FallbackPool: seq<string> := ["basic-1.jpg"]

  const ImageDir: string := "/courses/"

  /** JavaScript truthiness of `course.image`: present and not the empty string. */
  predicate HasExplicitImage(course: Course) {
    course.image.Some? && course.image.value != ""
  }

  /** The candidate images for a category; never empty. */
  function ImagePool(category: string): (pool: seq<string>)
    ensures |pool| >= 1
    ensures category !in CategoryImages ==> pool == FallbackPool
  {
    if category in CategoryImages then CategoryImages[category] else FallbackPool
  }

  /** The sum of the character codes of `s`, folded from the left as `reduce` does. */
  function CodeSum(s: string): nat {
    if s == [] then 0 else CodeSum(s[..|s| - 1]) + s[|s| - 1] as nat
  }

  /** The position in `pool` that the hash of `id` selects. */
  function ImageIndex(id: string, pool: seq<string>): (k: nat)
    requires |pool| >= 1
    ensures k < |pool|
  {
    CodeSum(id) % |pool|
  }

  /** The image reference a course card shows. */
  function ImageSource(course: Course): (r: string)
    ensures HasExplicitImage(course) ==> r == course.image.value
    ensures !HasExplicitImage(course) ==>
      exists k :: 0 <= k < |ImagePool(course.category)| && r == ImageDir + ImagePool(course.category)[k]
    ensures !HasExplicitImage(course) ==>
      r == ImageDir + ImagePool(course.category)[CodeSum(course.id) % |ImagePool(course.category)|]
  {
    if HasExplicitImage(course) then course.image.value
    else
      var pool := ImagePool(course.category);
      var k := ImageIndex(course.id, pool);
      assert ImageDir + pool[k] == ImageDir + ImagePool(course.category)[k];
      ImageDir + pool[k]
  }

  lemma {:induction false} CodeSumAppend(a: string, b: string)
    ensures CodeSum(a + b) == CodeSum(a) + CodeSum(b)
    decreases |b|
  {
    if b == [] {
      assert a + b == a;
    } else {
      var b' := b[..|b| - 1];
      assert (a + b)[..|a + b| - 1] == a + b';
      CodeSumAppend(a, b');
    }
  }

  /** Taking one character out of `b` lowers the sum by that character's code. */
  lemma {:induction false} CodeSumRemove(b: string, i: nat)
    requires i < |b|
    ensures CodeSum(b) == CodeSum(b[..i] + b[i + 1..]) + b[i] as nat
  {
    var upTo, right := b[..i + 1], b[i + 1..];
    assert upTo[..i] == b[..i];
    assert CodeSum(upTo) == CodeSum(b[..i]) + b[i] as nat;
    assert b == upTo + right;
    CodeSumAppend(upTo, right);
    CodeSumAppend(b[..i], right);
  }

  /** A character of the multiset of `b` sits at some position of `b`. */
  lemma {:induction false} IndexOf(x: char, b: string) returns (i: nat)
    requires x in multiset(b)
    ensures i < |b| && b[i] == x
  {
    assert x in b;
    i :| 0 <= i < |b| && b[i] == x;
  }

  /** Taking the same character out of two strings with equal multisets keeps them equal. */
  lemma {:induction false} MultisetRemove(a: string, b: string, i: nat)
    requires a != [] && i < |b| && b[i] == a[0]
    requires multiset(a) == multiset(b)
    ensures multiset(a[1..]) == multiset(b[..i] + b[i + 1..])
  {
    assert a == [a[0]] + a[1..];
    assert b == b[..i] + [b[i]] + b[i + 1..];
    assert multiset(a[1..]) == multiset(a) - multiset{a[0]};
    assert multiset(b[..i] + b[i + 1..]) == multiset(b) - multiset{b[i]};
  }

  /** The hash ignores order: rearranging the characters keeps the sum. */
  lemma {:induction false} CodeSumPermutation(a: string, b: string)
    requires multiset(a) == multiset(b)
    ensures CodeSum(a) == CodeSum(b)
    decreases |a|
  {
    if a != [] {
      var i := IndexOf(a[0], b);
      MultisetRemove(a, b, i);
      CodeSumPermutation(a[1..], b[..i] + b[i + 1..]);
      CodeSumRemove(a, 0);
      CodeSumRemove(b, i);
      assert a[..0] + a[1..] == a[1..];
    }
  }

  /** Two courses of one category whose ids are anagrams get the same image. */
  lemma SameImageForAnagramIds(c1: Course, c2: Course)
    requires !HasExplicitImage(c1) && !HasExplicitImage(c2)
    requires c1.category == c2.category && multiset(c1.id) == multiset(c2.id)
    ensures ImageSource(c1) == ImageSource(c2)
  {
    CodeSumPermutation(c1.id, c2.id);
  }

  /** Without an explicit image, only the id and the category decide the image. */
  lemma ImageDependsOnIdAndCategory(c1: Course, c2: Course)
    requires !HasExplicitImage(c1) && !HasExplicitImage(c2)
    requires c1.id == c2.id && c1.category == c2.category
    ensures ImageSource(c1) == ImageSource(c2)
  {
  }

  /** A category missing from the table always shows the fallback image. */
  lemma UnknownCategoryFallsBack(course: Course)
    requires !HasExplicitImage(course) && course.category !in CategoryImages
    ensures ImageSource(course) == "/courses/basic-1.jpg"
  {
  }

  /** Accounting has a single image, which every Accounting course shows. */
  lemma AccountingSingleImage(course: Course)
    requires !HasExplicitImage(course) && course.category == "Accounting"
    ensures ImageSource(course) == "/courses/accounting-1.jpg"
  {
  }

  /**
   * Courses of one category are spread over its pool: the ids "python" (code
   * sum 674) and "java" (code sum 418) pick different Programming images.
   */
  lemma ProgrammingImagesSpread(python: Course, java: Course)
    requires !HasExplicitImage(python) && python.category == "Programming" && python.id == "python"
    requires !HasExplicitImage(java) && java.category == "Programming" && java.id == "java"
    ensures ImageSource(python) == "/courses/programming-3.jpg"
    ensures ImageSource(java) == "/courses/programming-2.jpg"
  {
    PythonImage(python);
    JavaImage(java);
  }

  lemma PythonImage(course: Course)
    requires !HasExplicitImage(course) && course.category == "Programming" && course.id == "python"
    ensures ImageSource(course) == "/courses/programming-3.jpg"
  {
    PythonCodeSum();
    assert ImageIndex(course.id, ImagePool(course.category)) == 2;
  }

  lemma JavaImage(course: Course)
    requires !HasExplicitImage(course) && course.category == "Programming" && course.id == "java"
    ensures ImageSource(course) == "/courses/programming-2.jpg"
  {
    JavaCodeSum();
    assert ImageIndex(course.id, ImagePool(course.category)) == 1;
  }

  lemma PythonCodeSum()
    ensures CodeSum("python") == 674
  {
    assert "python"[..5] == "pytho";
    assert "pytho"[..4] == "pyth";
    assert "pyth"[..3] == "pyt";
    assert "pyt"[..2] == "py";
    assert "py"[..1] == "p";
    assert "p"[..0] == "";
  }

  lemma JavaCodeSum()
    ensures CodeSum("java") == 418
  {
    assert "java"[..3] == "jav";
    assert "jav"[..2] == "ja";
    assert "ja"[..1] == "j";
    assert "j"[..0] == "";
  }

  /** Diploma and Basic draw from the same pool, so a shared id gives a shared image. */
  lemma DiplomaSharesBasicPool(c1: Course, c2: Course)
    requires !HasExplicitImage(c1) && !HasExplicitImage(c2)
    requires c1.category == "Diploma" && c2.category == "Basic" && c1.id == c2.id
    ensures ImagePool("Diploma") == ImagePool("Basic")
    ensures ImageSource(c1) == ImageSource(c2)
  {
  }
}
