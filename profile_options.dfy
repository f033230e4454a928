/**
 * The option catalogues offered by the onboarding wizard and the profile
 * editor. Both pages declare the same three literal lists
 * (`AVAILABLE_SKILLS`, `AVAILABLE_INTERESTS`, `LOOKING_FOR_OPTIONS`); they are
 * stated once here.
 */
module ProfileOptions {
  const AvailableSkills: seq<string> := [
    "JavaScript", "Python", "React", "Node.js", "TypeScript", "Java", "C++", "Swift",
    "UI/UX Design", "Graphic Design", "Figma", "Adobe Creative Suite", "Sketch",
    "Digital Marketing", "Content Writing", "Social Media", "SEO", "Analytics",
    "Project Management", "Business Strategy", "Finance", "Entrepreneurship",
    "Data Science", "Machine Learning", "AI", "Blockchain", "Cybersecurity",
    "Mobile Development", "Web Development", "DevOps", "Cloud Computing"]

  const AvailableInterests: seq<string> := [
    "Artificial Intelligence", "Web Development", "Mobile Apps", "Gaming", "E-commerce",
    "Social Impact", "Education Technology", "Healthcare", "Fintech", "Climate Tech",
    "Blockchain", "AR/VR", "IoT", "Robotics", "Data Analytics", "Cybersecurity",
    "Open Source", "Startups", "Research", "Innovation", "Sustainability"]

  const LookingForOptions: seq<string> := [
    "Co-founder", "Technical Partner", "Design Partner", "Marketing Partner",
    "Business Partner", "Mentor", "Team Member", "Project Collaborator",
    "Research Partner", "Study Buddy", "Hackathon Team", "Startup Team"]
}
