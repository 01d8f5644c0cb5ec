/** The portfolio panel: images tagged with a category, filtered by the
    selected category, counted per category, and written whole to the
    "photographer_portfolio" store. */
module Portfolio {
  import opened Opt
  import opened Seqs
  import Text

  datatype Image = Image(id: string, src: string, category: string, title: string, description: string)

  /** The images the panel starts with when nothing is stored. */
  function DefaultImages(): (r: seq<Image>)
    ensures |r| == 3 && Distinct(Map(r, ImageId))
  {
    [ Image("1", "/src/assets/photographer-1.jpg", "Wedding", "Romantic Wedding Ceremony",
            "Beautiful outdoor wedding ceremony at sunset"),
      Image("2", "/src/assets/photographer-2.jpg", "Portrait", "Professional Headshots",
            "Corporate headshot session"),
      Image("3", "/src/assets/photographer-3.jpg", "Event", "Corporate Gala",
            "Annual company celebration event") ]
  }

  /** The filter buttons, in order; "All" shows every image. */
  const Categories: seq<string> := ["All", "Wedding", "Portrait", "Event", "Corporate", "Family", "Maternity"]

  const DefaultCategory := "Wedding"
  const UploadDescription := "New portfolio image"

  function ImageId(img: Image): string
  {
    img.id
  }

  function LacksId(id: string): Image -> bool
  {
    (img: Image) => img.id != id
  }

  function InCategory(c: string): Image -> bool
  {
    (img: Image) => img.category == c
  }

  /** The image record one uploaded file becomes: its id is the upload time
      followed by the file's position, its source the file's data URL and its
      title the file name up to the first '.'. */
  function NewImage(stamp: string, index: nat, dataUrl: string, fileName: string): (r: Image)
    ensures r.id == stamp + Text.NatToString(index) && r.src == dataUrl
    ensures r.category == "Wedding" && r.description == "New portfolio image"
    ensures r.title <= fileName && '.' !in r.title
    ensures |r.title| < |fileName| ==> fileName[|r.title|] == '.'
  {
    Image(stamp + Text.NatToString(index), dataUrl, DefaultCategory,
          Text.BeforeFirst(fileName, '.'), UploadDescription)
  }

  /** `updateImageCategory`: the images with that id take the new category;
      nothing else changes. */
  function SetCategory(imgs: seq<Image>, id: string, c: string): (r: seq<Image>)
    ensures |r| == |imgs|
    ensures forall i :: 0 <= i < |imgs| ==> r[i] == imgs[i].(category := r[i].category)
    ensures forall i :: 0 <= i < |imgs| ==> r[i].category == if imgs[i].id == id then c else imgs[i].category
  {
    Map(imgs, (img: Image) => if img.id == id then img.(category := c) else img)
  }

  /** Images of other ids come through a category change untouched and in
      order, and every image of the id then shows under the new category. */
  lemma SetCategoryKeepsOthers(imgs: seq<Image>, id: string, c: string)
    ensures Filter(SetCategory(imgs, id, c), LacksId(id)) == Filter(imgs, LacksId(id))
    ensures forall img :: img in SetCategory(imgs, id, c) && img.id == id ==> img in FilteredImages(SetCategory(imgs, id, c), c)
  {
    FilterAgree(SetCategory(imgs, id, c), imgs, LacksId(id));
  }

  /** `deleteImage`: every image of another id, in order. */
  function RemoveImage(imgs: seq<Image>, id: string): (r: seq<Image>)
    ensures forall img :: img in r <==> img in imgs && img.id != id
  {
    Filter(imgs, LacksId(id))
  }

  /** Deleting keeps each image of another id as often as before, and
      changes nothing when no image has that id. */
  lemma RemoveImageKeeps(imgs: seq<Image>, id: string, img: Image)
    ensures multiset(RemoveImage(imgs, id))[img] == if img.id == id then 0 else multiset(imgs)[img]
    ensures (forall x :: x in imgs ==> x.id != id) ==> RemoveImage(imgs, id) == imgs
  {
    FilterCount(imgs, LacksId(id), img);
    if forall x :: x in imgs ==> x.id != id {
      FilterAll(imgs, LacksId(id));
    }
  }

  /** Deleting keeps the order of what remains: the images left of two lists
      joined are the images left of each, joined, and a single image stays
      exactly when it has another id. */
  lemma RemoveImageInOrder(a: seq<Image>, b: seq<Image>, id: string, img: Image)
    ensures RemoveImage(a + b, id) == RemoveImage(a, id) + RemoveImage(b, id)
    ensures RemoveImage([img], id) == if img.id == id then [] else [img]
  {
    FilterAppend(a, b, LacksId(id));
    assert [img][1..] == [];
  }

  /** `filteredImages`: everything for "All", otherwise exactly the images of
      the selected category, in their order. */
  function FilteredImages(imgs: seq<Image>, selected: string): (r: seq<Image>)
    ensures selected == "All" ==> r == imgs
    ensures selected != "All" ==> forall img :: img in r <==> img in imgs && img.category == selected
    ensures |r| <= |imgs|
  {
    if selected == "All" then imgs else Filter(imgs, InCategory(selected))
  }

  /** A category's view shows each image of that category as often as the
      list holds it and no other image. */
  lemma FilteredImagesCount(imgs: seq<Image>, selected: string, img: Image)
    ensures multiset(FilteredImages(imgs, selected))[img] ==
              if selected == "All" || img.category == selected then multiset(imgs)[img] else 0
  {
    if selected != "All" {
      FilterCount(imgs, InCategory(selected), img);
    }
  }

  /** The view keeps the order of the list: it is built image by image, and a
      single image shows exactly when it is of the selected category. */
  lemma FilteredImagesInOrder(a: seq<Image>, b: seq<Image>, selected: string, x: Image)
    ensures FilteredImages(a + b, selected) == FilteredImages(a, selected) + FilteredImages(b, selected)
    ensures FilteredImages([x], selected) == if selected == "All" || x.category == selected then [x] else []
  {
    if selected != "All" {
      FilterAppend(a, b, InCategory(selected));
      assert [x][1..] == [];
    }
  }

  /** The badge on a category button. */
  function CategoryCount(imgs: seq<Image>, c: string): (n: nat)
    ensures n <= |imgs|
    ensures n == 0 <==> forall img :: img in imgs ==> img.category != c
  {
    var r := Filter(imgs, InCategory(c));
    assert r != [] ==> r[0] in r;
    |r|
  }

  function Category(img: Image): string
  {
    img.category
  }

  /** A category's badge is the number of times that category occurs among
      the images' categories. */
  lemma {:induction false} CategoryCountIsMultiplicity(imgs: seq<Image>, c: string)
    ensures CategoryCount(imgs, c) == multiset(Map(imgs, Category))[c]
  {
    if imgs != [] {
      assert imgs == [imgs[0]] + imgs[1..];
      MapAppend([imgs[0]], imgs[1..], Category);
      CategoryCountIsMultiplicity(imgs[1..], c);
    }
  }

  function IsUsed(imgs: seq<Image>): string -> bool
  {
    (c: string) => c != "All" && exists img :: img in imgs && img.category == c
  }

  lemma CategoriesDistinct()
    ensures Distinct(Categories)
  {
  }

  /** "All" is a filter, not a category any image is in. */
  lemma AllIsNeverUsed(imgs: seq<Image>)
    ensures |Filter(Categories, IsUsed(imgs))| <= |Categories| - 1
  {
    var tail := Categories[1..];
    assert Categories == ["All"] + tail;
    assert !IsUsed(imgs)("All");
    assert Filter(Categories, IsUsed(imgs)) == Filter(tail, IsUsed(imgs));
  }

  /** The listed categories, "All" aside, that some image is in. */
  function UsedCategories(imgs: seq<Image>): set<string>
  {
    set c | c in Categories && IsUsed(imgs)(c)
  }

  /** The "Categories" stat: how many listed categories are in use. */
  function UsedCategoryCount(imgs: seq<Image>): (n: nat)
    ensures n == |UsedCategories(imgs)|
    ensures n <= |Categories| - 1
  {
    AllIsNeverUsed(imgs);
    CategoriesDistinct();
    DistinctFilterCard(Categories, IsUsed(imgs));
    assert UsedCategories(imgs) == Passing(Categories, IsUsed(imgs));
    |Filter(Categories, IsUsed(imgs))|
  }

  /** The uploads as written: every file's callback stores the list captured
      when the upload began plus its own image, so each callback undoes the
      previous one. */
  function UploadAsWritten(current: seq<Image>, snapshot: seq<Image>, uploads: seq<Image>): (r: seq<Image>)
    decreases |uploads|
  {
    if uploads == [] then current
    else UploadAsWritten(snapshot + [uploads[0]], snapshot, uploads[1..])
  }

  /** Only the last file's image survives an upload as written. */
  lemma {:induction false} UploadAsWrittenKeepsLast(current: seq<Image>, snapshot: seq<Image>, uploads: seq<Image>)
    requires |uploads| > 0
    ensures UploadAsWritten(current, snapshot, uploads) == snapshot + [uploads[|uploads| - 1]]
    decreases |uploads|
  {
    if |uploads| > 1 {
      UploadAsWrittenKeepsLast(snapshot + [uploads[0]], snapshot, uploads[1..]);
    }
  }

  /** Two files uploaded onto an empty portfolio leave one image behind. */
  lemma UploadAsWrittenLosesImages(a: Image, b: Image)
    ensures |UploadAsWritten([], [], [a, b])| == 1
  {
    UploadAsWrittenKeepsLast([], [], [a, b]);
  }

  /** The uploads as intended: every callback appends its image to the list
      as it then is. */
  function UploadAll(current: seq<Image>, uploads: seq<Image>): (r: seq<Image>)
    decreases |uploads|
  {
    if uploads == [] then current
    else UploadAll(current + [uploads[0]], uploads[1..])
  }

  /** Uploading keeps the earlier images and adds every file's image, in the
      order of the files. */
  lemma {:induction false} UploadAllAppends(current: seq<Image>, uploads: seq<Image>)
    ensures UploadAll(current, uploads) == current + uploads
    ensures |UploadAll(current, uploads)| == |current| + |uploads|
    decreases |uploads|
  {
    if uploads != [] {
      UploadAllAppends(current + [uploads[0]], uploads[1..]);
      assert current + [uploads[0]] + uploads[1..] == current + uploads;
    }
  }

  class PortfolioPanel {
    var images: seq<Image>
    var selectedCategory: string
    var isUploading: bool
    /** The images as the last file-change handler saw them; its pending
        callbacks close over this list. */
    var uploadBase: seq<Image>
    /** "photographer_portfolio"; None while nothing was ever written. */
    var stored: Option<seq<Image>>

    /** Mounting: the stored images whenever the key is set, even to an empty
        list, else the defaults. */
    constructor Load(saved: Option<seq<Image>>)
      ensures images == saved.GetOr(DefaultImages()) && stored == saved
      ensures selectedCategory == "All" && !isUploading && uploadBase == images
    {
      images := saved.GetOr(DefaultImages());
      stored := saved;
      selectedCategory := "All";
      isUploading := false;
      uploadBase := images;
    }

    /** `savePortfolio`: the list shown and the list stored are the same. */
    method SavePortfolio(updated: seq<Image>)
      modifies this
      ensures images == updated && stored == Some(updated)
      ensures selectedCategory == old(selectedCategory) && isUploading == old(isUploading)
      ensures uploadBase == old(uploadBase)
    {
      images := updated;
      stored := Some(updated);
    }

    /** The file input changed: with a file list (possibly empty) the panel
        shows the upload banner, and the callbacks it schedules capture the
        images as they are now. */
    method BeginUpload(fileCount: Option<nat>)
      modifies this
      ensures fileCount.None? ==> isUploading == old(isUploading) && uploadBase == old(uploadBase)
      ensures fileCount.Some? ==> isUploading && uploadBase == old(images)
      ensures images == old(images) && stored == old(stored) && selectedCategory == old(selectedCategory)
    {
      if fileCount.None? {
        return;
      }
      isUploading := true;
      uploadBase := images;
    }

    /** One file's callback, as written: it saves the captured images plus its
        own image, so whatever changed since the upload began (an image of an
        earlier file, a deletion, a category change) is overwritten. The banner
        goes when it was the last of `fileCount` files. */
    method CompleteUpload(img: Image, index: nat, fileCount: nat)
      modifies this
      ensures images == old(uploadBase) + [img] && stored == Some(images)
      ensures isUploading == (old(isUploading) && index != fileCount - 1)
      ensures selectedCategory == old(selectedCategory) && uploadBase == old(uploadBase)
    {
      SavePortfolio(uploadBase + [img]);
      if index == fileCount - 1 {
        isUploading := false;
      }
    }

    /** `handleImageUpload` with its callbacks run in file order: only the
        last file's image is added to the images the upload began with. */
    method UploadFiles(uploads: seq<Image>)
      modifies this
      ensures images == UploadAsWritten(old(images), old(images), uploads)
      ensures |uploads| > 0 ==> images == old(images) + [uploads[|uploads| - 1]] && stored == Some(images)
      ensures |uploads| == 0 ==> stored == old(stored)
      ensures isUploading == (|uploads| == 0)
      ensures selectedCategory == old(selectedCategory) && uploadBase == old(images)
    {
      var n := |uploads|;
      BeginUpload(Some(n));
      var i := 0;
      while i < n
        invariant 0 <= i <= n
        invariant uploadBase == old(images) && selectedCategory == old(selectedCategory)
        invariant isUploading == (i < n || n == 0)
        invariant i == 0 ==> images == old(images) && stored == old(stored)
        invariant i > 0 ==> images == old(images) + [uploads[i - 1]] && stored == Some(images)
      {
        CompleteUpload(uploads[i], i, n);
        i := i + 1;
      }
      if n > 0 {
        UploadAsWrittenKeepsLast(old(images), old(images), uploads);
      }
    }

    /** One file's image arriving as intended: it is appended to the images as
        they are now. */
    method AppendUpload(img: Image, index: nat, fileCount: nat)
      modifies this
      ensures images == old(images) + [img] && stored == Some(images)
      ensures isUploading == (old(isUploading) && index != fileCount - 1)
      ensures selectedCategory == old(selectedCategory) && uploadBase == old(uploadBase)
    {
      SavePortfolio(images + [img]);
      if index == fileCount - 1 {
        isUploading := false;
      }
    }

    /** The upload as intended, callbacks in file order: every file's image is
        added after the images the upload began with. */
    method UploadFilesAsIntended(uploads: seq<Image>)
      modifies this
      ensures images == UploadAll(old(images), uploads)
      ensures images == old(images) + uploads
      ensures |uploads| > 0 ==> stored == Some(images)
      ensures |uploads| == 0 ==> stored == old(stored)
      ensures isUploading == (|uploads| == 0)
      ensures selectedCategory == old(selectedCategory) && uploadBase == old(images)
    {
      var n := |uploads|;
      BeginUpload(Some(n));
      var i := 0;
      while i < n
        invariant 0 <= i <= n
        invariant uploadBase == old(images) && selectedCategory == old(selectedCategory)
        invariant isUploading == (i < n || n == 0)
        invariant images == old(images) + uploads[..i]
        invariant i == 0 ==> stored == old(stored)
        invariant i > 0 ==> stored == Some(images)
      {
        AppendUpload(uploads[i], i, n);
        assert uploads[..i + 1] == uploads[..i] + [uploads[i]];
        i := i + 1;
      }
      assert uploads[..n] == uploads;
      UploadAllAppends(old(images), uploads);
    }

    method UpdateImageCategory(imageId: string, category: string)
      modifies this
      ensures images == SetCategory(old(images), imageId, category) && stored == Some(images)
      ensures selectedCategory == old(selectedCategory) && isUploading == old(isUploading)
      ensures uploadBase == old(uploadBase)
    {
      SavePortfolio(SetCategory(images, imageId, category));
    }

    method DeleteImage(imageId: string)
      modifies this
      ensures images == RemoveImage(old(images), imageId) && stored == Some(images)
      ensures selectedCategory == old(selectedCategory) && isUploading == old(isUploading)
      ensures uploadBase == old(uploadBase)
    {
      SavePortfolio(RemoveImage(images, imageId));
    }

    method SelectCategory(category: string)
      modifies this
      ensures selectedCategory == category
      ensures images == old(images) && stored == old(stored) && isUploading == old(isUploading)
      ensures uploadBase == old(uploadBase)
    {
      selectedCategory := category;
    }
  }
}
