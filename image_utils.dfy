// The public image path builders (src/lib/imageUtils.ts): every builder puts a
// relative path under the "/images/" directory.

module ImageUtils {
  import opened Lists
  import opened Text

  const ImagesPrefix := "/images/"

  /** `getImageUrl`: the path under the public images directory. */
  function GetImageUrl(path: string): (url: string)
    ensures ImagesPrefix <= url
    ensures url[|ImagesPrefix|..] == path
  {
    ImagesPrefix + path
  }

  /** Different paths give different URLs. */
  lemma ImageUrlInjective(p: string, q: string)
    requires GetImageUrl(p) == GetImageUrl(q)
    ensures p == q
  {
    assert GetImageUrl(p)[|ImagesPrefix|..] == GetImageUrl(q)[|ImagesPrefix|..];
  }

  /** `getProjectImageUrl`: `projects/<id>/<file>` under the images directory. */
  function GetProjectImageUrl(projectId: string, filename: string): string
  {
    GetImageUrl("projects/" + projectId + "/" + filename)
  }

  const ProjectsPrefix := "/images/projects/"
  const ContentPrefix := "/images/blog/content/"

  /**
   * Reads a URL of the form `<dir><key>/<file>` back into its key and file name: the key
   * runs up to the first '/' after the directory prefix.
   */
  function ImageParts(dir: string, url: string): (r: Option<(string, string)>)
    ensures r.Some? ==> '/' !in r.value.0 && url == dir + r.value.0 + "/" + r.value.1
  {
    if |url| < |dir| || url[..|dir|] != dir then None
    else
      var rest := url[|dir|..];
      var key := Split(rest, '/')[0];
      SplitFirstPiece(rest, '/');
      if |key| < |rest| then
        assert rest == key + "/" + rest[|key| + 1..];
        assert url == url[..|dir|] + rest;
        Some((key, rest[|key| + 1..]))
      else None
  }

  /** A key without '/' and a file name are recovered from `<dir><key>/<file>`. */
  lemma ImagePartsRoundTrip(dir: string, key: string, filename: string)
    requires '/' !in key
    ensures ImageParts(dir, dir + key + "/" + filename) == Some((key, filename))
  {
    var url := dir + key + "/" + filename;
    assert url == dir + (key + "/" + filename);
    var rest := url[|dir|..];
    assert rest == key + "/" + filename;
    assert rest[..|key|] == key;
    SplitAtFirst(rest, '/', |key|);
  }

  /** A project id without '/' and its file name are recovered from the URL built from them. */
  lemma ProjectImageRoundTrip(projectId: string, filename: string)
    requires '/' !in projectId
    ensures ImageParts(ProjectsPrefix, GetProjectImageUrl(projectId, filename)) == Some((projectId, filename))
  {
    assert GetProjectImageUrl(projectId, filename) == ProjectsPrefix + projectId + "/" + filename;
    ImagePartsRoundTrip(ProjectsPrefix, projectId, filename);
  }

  /** `getBlogCoverUrl`: `blog/covers/<slug>.jpg` under the images directory. */
  function GetBlogCoverUrl(slug: string): string
  {
    GetImageUrl("blog/covers/" + slug + ".jpg")
  }

  const CoversPrefix := "/images/blog/covers/"

  /** Every cover URL names a JPEG file. */
  lemma BlogCoverIsJpeg(slug: string)
    ensures var url := GetBlogCoverUrl(slug); |url| >= 4 && url[|url| - 4..] == ".jpg"
  {
    var url := GetBlogCoverUrl(slug);
    assert url == CoversPrefix + slug + ".jpg";
  }

  /** The slug is what lies between the covers directory and the ".jpg" extension. */
  lemma CoverSlugRoundTrip(slug: string)
    ensures var url := GetBlogCoverUrl(slug);
      CoversPrefix <= url && |url| >= |CoversPrefix| + 4 && url[|CoversPrefix|..|url| - 4] == slug
  {
    var url := GetBlogCoverUrl(slug);
    assert url == CoversPrefix + slug + ".jpg";
  }

  /** `getBlogContentImageUrl`: `blog/content/<slug>/<file>` under the images directory. */
  function GetBlogContentImageUrl(slug: string, filename: string): string
  {
    GetImageUrl("blog/content/" + slug + "/" + filename)
  }

  /** A post slug without '/' and the file name are recovered from a content image URL. */
  lemma ContentImageRoundTrip(slug: string, filename: string)
    requires '/' !in slug
    ensures ImageParts(ContentPrefix, GetBlogContentImageUrl(slug, filename)) == Some((slug, filename))
  {
    assert GetBlogContentImageUrl(slug, filename) == ContentPrefix + slug + "/" + filename;
    ImagePartsRoundTrip(ContentPrefix, slug, filename);
  }

  const DefaultAvatarFile := "default.jpg"
  const AvatarPrefix := "/images/avatar/"

  /** `getAvatarUrl(filename)`: `avatar/<file>` under the images directory; the file name is what follows the avatar directory. */
  function GetAvatarUrl(filename: string): (url: string)
    ensures AvatarPrefix <= url
    ensures url[|AvatarPrefix|..] == filename
  {
    GetImageUrl("avatar/" + filename)
  }

  /** `getAvatarUrl()` with the default file name. */
  function GetDefaultAvatarUrl(): (url: string)
    ensures url == "/images/avatar/default.jpg"
  {
    GetAvatarUrl(DefaultAvatarFile)
  }

  /** The fallback project cover. */
  function DefaultProjectCover(): string
  {
    GetImageUrl("projects/default-project.jpg")
  }

  /** The fallback blog cover: the cover a post with slug "default" would have. */
  function DefaultBlogCover(): (url: string)
    ensures url == GetBlogCoverUrl("default")
  {
    GetImageUrl("blog/covers/default.jpg")
  }

  /** The fallback hero image. */
  function DefaultHero(): string
  {
    GetImageUrl("hero/default.jpg")
  }

  /** The fallback images record. */
  datatype DefaultImageSet = DefaultImageSet(avatar: string, projectCover: string, blogCover: string, hero: string)

  /** `defaultImages`: the four fallbacks. */
  const DefaultImages := DefaultImageSet(GetDefaultAvatarUrl(), DefaultProjectCover(), DefaultBlogCover(), DefaultHero())

  /** Every fallback lies under the images directory. */
  lemma DefaultImagesUnderImages()
    ensures ImagesPrefix <= DefaultImages.avatar && ImagesPrefix <= DefaultImages.projectCover
    ensures ImagesPrefix <= DefaultImages.blogCover && ImagesPrefix <= DefaultImages.hero
  {
  }

  /** The four fallbacks: the default avatar, a project cover and a hero beside the per-id directories, and the blog cover of the slug "default". */
  lemma DefaultImageFiles()
    ensures DefaultImages.avatar == GetAvatarUrl(DefaultAvatarFile)
    ensures DefaultImages.projectCover == ProjectsPrefix + "default-project.jpg"
    ensures ImageParts(ProjectsPrefix, DefaultImages.projectCover).None?
    ensures DefaultImages.blogCover == GetBlogCoverUrl("default")
    ensures DefaultImages.hero == ImagesPrefix + "hero/default.jpg"
  {
    assert DefaultImages.projectCover == ProjectsPrefix + "default-project.jpg";
    NoKeyWithoutSlash(ProjectsPrefix, "default-project.jpg");
  }

  /** A file directly in the directory, with no '/' after the prefix, has no key. */
  lemma NoKeyWithoutSlash(dir: string, name: string)
    requires '/' !in name
    ensures ImageParts(dir, dir + name).None?
  {
    var url := dir + name;
    assert url[..|dir|] == dir;
    assert url[|dir|..] == name;
    SplitFirstPiece(name, '/');
  }
}
