/** The record shapes the portal's stores hold (types.ts). */
module Types {
  import opened Wrappers

  /** A comment under a gallery post. */
  datatype Comment = Comment(id: string, author: string, text: string, date: string)

  /** A gallery board post with its likes counter and its nested comments. */
  datatype Post = Post(
    id: string,
    title: string,
    content: string,
    author: string,
    authorDept: string,
    date: string,
    likes: int,
    tags: seq<string>,
    imageUrl: Option<string>,
    comments: seq<Comment>)

  /** The editable landing-page copy. */
  datatype SiteConfig = SiteConfig(
    mainTitle: string,
    mainSubtitle: string,
    mainDescription: string,
    noticeTitle: string,
    noticeContent: string,
    showNotice: bool)

  datatype UserRole = Guest | Pending | Member | Admin

  /** The session identity and its level/XP counters. */
  datatype User = User(
    id: string,
    name: string,
    email: string,
    role: UserRole,
    department: string,
    level: int,
    xp: int,
    maxXp: int)

  /** An office task recipe; `prompt` is a template with a `[...]` placeholder. */
  datatype TemplateItem = TemplateItem(
    id: string,
    title: string,
    category: string,
    description: string,
    prompt: string)
}
